/** Canonicalisation of the four input tables: each table's own column names
    are relabelled onto the shared names the reconciliation uses, and the
    columns the reconciliation reads are taken out of each row. */
module Canon {
  import opened Cells

  /** One spreadsheet row: column name to cell. */
  type Row = map<string, Cell>

  /** A table: its column names and its rows, in file order. */
  datatype Frame = Frame(columns: set<string>, rows: seq<Row>)

  /** Every row of a frame has exactly the frame's columns. */
  predicate WellFormed(f: Frame)
  {
    forall i :: 0 <= i < |f.rows| ==> f.rows[i].Keys == f.columns
  }

  // The canonical column names the reconciliation reads.
  const SiteCodeCol := "站点编码"
  const SkuCol := "商品编码"
  const QuantityCol := "数量"
  const CatalogueCol := "油站订货目录"
  const NewCodeCol := "新编码"
  const LegacyCodeCol := "旧编码"
  const WarehouseCol := "仓库"
  const SiteNameCol := "站点名称"

  /** Column relabelling for the web-channel order file. */
  const WebColumns: map<string, string> :=
    map["收货组织编码" := SiteCodeCol, "商品编码" := SkuCol, "商品名称" := "商品名称", "订货数量" := QuantityCol]

  /** Column relabelling for the manual-channel order file. */
  const ManualColumns: map<string, string> :=
    map["油站编码" := SiteCodeCol, "商品编码" := SkuCol, "订货数量" := QuantityCol]

  /** Column relabelling for the SKU master file. */
  const MasterColumns: map<string, string> :=
    map["商品编码" := SkuCol, "油站订货目录" := CatalogueCol]

  /** Column relabelling for the hosted site table. */
  const SiteColumns: map<string, string> :=
    map["site_code" := NewCodeCol, "old_code" := LegacyCodeCol, "warehouse" := WarehouseCol, "name" := SiteNameCol]

  /** The name a column has after relabelling: its mapped name if the map
      knows it, otherwise its own name. */
  function RenameKey(m: map<string, string>, k: string): string
  {
    if k in m then m[k] else k
  }

  /** No two columns end up with the same name after relabelling. */
  predicate NoCollision(cols: set<string>, m: map<string, string>)
  {
    forall a, b :: a in cols && b in cols && a != b ==> RenameKey(m, a) != RenameKey(m, b)
  }

  function RenamedColumns(cols: set<string>, m: map<string, string>): set<string>
  {
    set k | k in cols :: RenameKey(m, k)
  }

  /** Relabel the columns of one row; every cell keeps its value. */
  function RenameRow(r: Row, m: map<string, string>): (r': Row)
    requires NoCollision(r.Keys, m)
    ensures r'.Keys == RenamedColumns(r.Keys, m)
    ensures forall k :: k in r ==> r'[RenameKey(m, k)] == r[k]
  {
    map k | k in r :: RenameKey(m, k) := r[k]
  }

  /** `DataFrame.rename(columns=m, inplace=True)`, as a relabelling of the
      frame: same rows in the same order, each cell under its new name. */
  function Rename(f: Frame, m: map<string, string>): (g: Frame)
    requires WellFormed(f) && NoCollision(f.columns, m)
    ensures WellFormed(g)
    ensures g.columns == RenamedColumns(f.columns, m)
    ensures |g.rows| == |f.rows|
    ensures forall i, k :: 0 <= i < |f.rows| && k in f.rows[i] ==>
              RenameKey(m, k) in g.rows[i] && g.rows[i][RenameKey(m, k)] == f.rows[i][k]
  {
    Frame(RenamedColumns(f.columns, m),
          seq(|f.rows|, i requires 0 <= i < |f.rows| && f.rows[i].Keys == f.columns => RenameRow(f.rows[i], m)))
  }

  /** The cell of a column, or a missing value where the frame lacks the
      column (a column only one of two concatenated frames has). */
  function CellAt(r: Row, col: string): Cell
  {
    if col in r then r[col] else Missing
  }

  /** An order line as read from either channel's file. */
  datatype OrderRow = OrderRow(siteCode: Cell, sku: Cell, quantity: Cell)

  /** A row of the SKU master: the SKU and its station-ordering status. */
  datatype SkuEntry = SkuEntry(sku: Cell, status: Cell)

  /** A row of the site table: new code, legacy code, warehouse, site name. */
  datatype SiteRecord = SiteRecord(newCode: Cell, legacyCode: Cell, warehouse: Cell, name: Cell)

  function OrderRows(f: Frame): (r: seq<OrderRow>)
    ensures |r| == |f.rows|
    ensures forall i :: 0 <= i < |r| ==>
              r[i] == OrderRow(CellAt(f.rows[i], SiteCodeCol), CellAt(f.rows[i], SkuCol), CellAt(f.rows[i], QuantityCol))
  {
    seq(|f.rows|, i requires 0 <= i < |f.rows| =>
      OrderRow(CellAt(f.rows[i], SiteCodeCol), CellAt(f.rows[i], SkuCol), CellAt(f.rows[i], QuantityCol)))
  }

  function SkuEntries(f: Frame): (r: seq<SkuEntry>)
    ensures |r| == |f.rows|
    ensures forall i :: 0 <= i < |r| ==>
              r[i] == SkuEntry(CellAt(f.rows[i], SkuCol), CellAt(f.rows[i], CatalogueCol))
  {
    seq(|f.rows|, i requires 0 <= i < |f.rows| =>
      SkuEntry(CellAt(f.rows[i], SkuCol), CellAt(f.rows[i], CatalogueCol)))
  }

  function SiteRecords(f: Frame): (r: seq<SiteRecord>)
    ensures |r| == |f.rows|
    ensures forall i :: 0 <= i < |r| ==>
              r[i] == SiteRecord(CellAt(f.rows[i], NewCodeCol), CellAt(f.rows[i], LegacyCodeCol),
                                 CellAt(f.rows[i], WarehouseCol), CellAt(f.rows[i], SiteNameCol))
  {
    seq(|f.rows|, i requires 0 <= i < |f.rows| =>
      SiteRecord(CellAt(f.rows[i], NewCodeCol), CellAt(f.rows[i], LegacyCodeCol),
                 CellAt(f.rows[i], WarehouseCol), CellAt(f.rows[i], SiteNameCol)))
  }

  /** The input a run reads from, for naming the table a column is missing from. */
  datatype Source = WebOrders | ManualOrders | SiteTable | SkuMaster | CombinedOrders

  /** A column the run reads is absent: pandas raises `KeyError` and the run stops. */
  datatype SchemaError = MissingColumn(source: Source, column: string)

  /** Which of the columns the site join attaches an order file already
      has. A merge suffixes both copies of such a column (`仓库_x`, `仓库_y`),
      so for that file's lines the joined value never reaches the column
      the later steps read. */
  datatype Shadow = Shadow(warehouse: bool, siteName: bool)

  function ShadowOf(cols: set<string>): (sh: Shadow)
    ensures sh.warehouse <==> WarehouseCol in cols
    ensures sh.siteName <==> SiteNameCol in cols
  {
    Shadow(WarehouseCol in cols, SiteNameCol in cols)
  }

  /** The four inputs after canonicalisation, with each order file's shadowed
      columns. */
  datatype Inputs = Inputs(web: seq<OrderRow>, manual: seq<OrderRow>, sites: seq<SiteRecord>, master: seq<SkuEntry>,
                           webShadow: Shadow, manualShadow: Shadow)

  /** The first of `required` that `cols` lacks, as a one-element sequence,
      or the empty sequence when none is missing. */
  function FirstMissing(cols: set<string>, required: seq<string>): (r: seq<string>)
    ensures |r| <= 1
    ensures r == [] <==> forall c :: c in required ==> c in cols
    ensures r != [] ==> r[0] in required && r[0] !in cols
    ensures r != [] ==> exists k :: 0 <= k < |required| && required[k] == r[0] &&
                                    forall j :: 0 <= j < k ==> required[j] in cols
  {
    if required == [] then []
    else if required[0] !in cols then [required[0]]
    else FirstMissing(cols, required[1..])
  }

  /** Relabel all four tables and read out the columns the reconciliation
      uses. The column checks happen in the order the run touches the
      columns: the web file's site code, the manual file's site code, the
      site table's columns for the new-code join and then for the legacy-code
      join, the SKU master's two columns, and last the SKU column of the
      combined orders, which only one of the two order files needs to have.
      An order file that already has the catalogue column leaves the combined
      orders with only suffixed copies of it, and so does a warehouse column
      in both order files: the classification then finds no such column. */
  function Canonicalise(web: Frame, manual: Frame, master: Frame, site: Frame): (r: Result<Inputs, SchemaError>)
    requires WellFormed(web) && NoCollision(web.columns, WebColumns)
    requires WellFormed(manual) && NoCollision(manual.columns, ManualColumns)
    requires WellFormed(master) && NoCollision(master.columns, MasterColumns)
    requires WellFormed(site) && NoCollision(site.columns, SiteColumns)
    ensures
      var w, m := RenamedColumns(web.columns, WebColumns), RenamedColumns(manual.columns, ManualColumns);
      var k, s := RenamedColumns(master.columns, MasterColumns), RenamedColumns(site.columns, SiteColumns);
      && (r.Ok? <==> SiteCodeCol in w && SiteCodeCol in m
                     && NewCodeCol in s && LegacyCodeCol in s && WarehouseCol in s && SiteNameCol in s
                     && SkuCol in k && CatalogueCol in k
                     && (SkuCol in w || SkuCol in m)
                     && CatalogueCol !in w && CatalogueCol !in m
                     && !(WarehouseCol in w && WarehouseCol in m))
      && (SiteCodeCol !in w ==> r == Err(MissingColumn(WebOrders, SiteCodeCol)))
      && (r.Err? && r.error.source == ManualOrders ==> r.error.column == SiteCodeCol && SiteCodeCol !in m)
      && (r.Err? && r.error.source == SiteTable ==> r.error.column !in s)
      && (r.Err? && r.error.source == SkuMaster ==> r.error.column !in k)
      && (r.Err? && r.error.source == CombinedOrders ==>
            || (r.error.column == SkuCol && SkuCol !in w && SkuCol !in m)
            || (r.error.column == CatalogueCol && (CatalogueCol in w || CatalogueCol in m))
            || (r.error.column == WarehouseCol && WarehouseCol in w && WarehouseCol in m))
    ensures r.Ok? ==>
      && |r.value.web| == |web.rows| && |r.value.manual| == |manual.rows|
      && |r.value.sites| == |site.rows| && |r.value.master| == |master.rows|
      && r.value.webShadow == ShadowOf(RenamedColumns(web.columns, WebColumns))
      && r.value.manualShadow == ShadowOf(RenamedColumns(manual.columns, ManualColumns))
  {
    var w, m := Rename(web, WebColumns), Rename(manual, ManualColumns);
    var k, s := Rename(master, MasterColumns), Rename(site, SiteColumns);
    var siteForNew := FirstMissing(s.columns, [NewCodeCol, WarehouseCol, SiteNameCol]);
    var siteForLegacy := FirstMissing(s.columns, [LegacyCodeCol, WarehouseCol, SiteNameCol]);
    var masterMissing := FirstMissing(k.columns, [SkuCol, CatalogueCol]);
    if SiteCodeCol !in w.columns then Err(MissingColumn(WebOrders, SiteCodeCol))
    else if SiteCodeCol !in m.columns then Err(MissingColumn(ManualOrders, SiteCodeCol))
    else if siteForNew != [] then Err(MissingColumn(SiteTable, siteForNew[0]))
    else if siteForLegacy != [] then Err(MissingColumn(SiteTable, siteForLegacy[0]))
    else if masterMissing != [] then Err(MissingColumn(SkuMaster, masterMissing[0]))
    else if SkuCol !in w.columns && SkuCol !in m.columns then Err(MissingColumn(CombinedOrders, SkuCol))
    else if CatalogueCol in w.columns || CatalogueCol in m.columns then Err(MissingColumn(CombinedOrders, CatalogueCol))
    else if WarehouseCol in w.columns && WarehouseCol in m.columns then Err(MissingColumn(CombinedOrders, WarehouseCol))
    else Ok(Inputs(OrderRows(w), OrderRows(m), SiteRecords(s), SkuEntries(k), ShadowOf(w.columns), ShadowOf(m.columns)))
  }

  /** On success the four tables are read row for row from the relabelled
      frames: each order line's site code, SKU and quantity, each site
      record's codes, warehouse and name, and each master entry's SKU and
      catalogue status are the cells of those columns (see `OrderRows`,
      `SiteRecords`, `SkuEntries` and `Rename`). */
  lemma CanonicaliseRows(web: Frame, manual: Frame, master: Frame, site: Frame)
    requires WellFormed(web) && NoCollision(web.columns, WebColumns)
    requires WellFormed(manual) && NoCollision(manual.columns, ManualColumns)
    requires WellFormed(master) && NoCollision(master.columns, MasterColumns)
    requires WellFormed(site) && NoCollision(site.columns, SiteColumns)
    requires Canonicalise(web, manual, master, site).Ok?
    ensures
      var inp := Canonicalise(web, manual, master, site).value;
      && inp.web == OrderRows(Rename(web, WebColumns))
      && inp.manual == OrderRows(Rename(manual, ManualColumns))
      && inp.sites == SiteRecords(Rename(site, SiteColumns))
      && inp.master == SkuEntries(Rename(master, MasterColumns))
  {
  }

  /** Which of three required columns is reported missing first. */
  lemma FirstMissingOfThree(cols: set<string>, a: string, b: string, c: string)
    ensures FirstMissing(cols, [a, b, c]) ==
              if a !in cols then [a] else if b !in cols then [b] else if c !in cols then [c] else []
  {
    assert [a, b, c][1..] == [b, c] && [b, c][1..] == [c] && [c][1..] == [];
  }

  /** The run stops at the first read that fails, in the order app.py reads
      the columns: the web file's site code, the manual file's site code,
      the site table's columns as the new-code join and then the legacy-code
      join select them, the SKU master's columns, and finally the combined
      orders' SKU, catalogue and warehouse columns. Each clause says that
      every earlier read succeeded and names the error of the one that fails. */
  lemma {:induction false} ChecksInReadOrder(web: Frame, manual: Frame, master: Frame, site: Frame)
    requires WellFormed(web) && NoCollision(web.columns, WebColumns)
    requires WellFormed(manual) && NoCollision(manual.columns, ManualColumns)
    requires WellFormed(master) && NoCollision(master.columns, MasterColumns)
    requires WellFormed(site) && NoCollision(site.columns, SiteColumns)
    ensures
      var r := Canonicalise(web, manual, master, site);
      var w, m := RenamedColumns(web.columns, WebColumns), RenamedColumns(manual.columns, ManualColumns);
      var k, s := RenamedColumns(master.columns, MasterColumns), RenamedColumns(site.columns, SiteColumns);
      var codes := SiteCodeCol in w && SiteCodeCol in m;
      var sites := codes && NewCodeCol in s && WarehouseCol in s && SiteNameCol in s && LegacyCodeCol in s;
      var skus := sites && SkuCol in k && CatalogueCol in k;
      && (SiteCodeCol in w && SiteCodeCol !in m ==> r == Err(MissingColumn(ManualOrders, SiteCodeCol)))
      && (codes && NewCodeCol !in s ==> r == Err(MissingColumn(SiteTable, NewCodeCol)))
      && (codes && NewCodeCol in s && WarehouseCol !in s ==> r == Err(MissingColumn(SiteTable, WarehouseCol)))
      && (codes && NewCodeCol in s && WarehouseCol in s && SiteNameCol !in s ==>
            r == Err(MissingColumn(SiteTable, SiteNameCol)))
      && (codes && NewCodeCol in s && WarehouseCol in s && SiteNameCol in s && LegacyCodeCol !in s ==>
            r == Err(MissingColumn(SiteTable, LegacyCodeCol)))
      && (sites && SkuCol !in k ==> r == Err(MissingColumn(SkuMaster, SkuCol)))
      && (sites && SkuCol in k && CatalogueCol !in k ==> r == Err(MissingColumn(SkuMaster, CatalogueCol)))
      && (skus && SkuCol !in w && SkuCol !in m ==> r == Err(MissingColumn(CombinedOrders, SkuCol)))
      && (skus && (SkuCol in w || SkuCol in m) && (CatalogueCol in w || CatalogueCol in m) ==>
            r == Err(MissingColumn(CombinedOrders, CatalogueCol)))
      && (skus && (SkuCol in w || SkuCol in m) && CatalogueCol !in w && CatalogueCol !in m
          && WarehouseCol in w && WarehouseCol in m ==>
            r == Err(MissingColumn(CombinedOrders, WarehouseCol)))
  {
    var s := RenamedColumns(site.columns, SiteColumns);
    var k := RenamedColumns(master.columns, MasterColumns);
    FirstMissingOfThree(s, NewCodeCol, WarehouseCol, SiteNameCol);
    FirstMissingOfThree(s, LegacyCodeCol, WarehouseCol, SiteNameCol);
    assert FirstMissing(k, [SkuCol, CatalogueCol]) ==
             if SkuCol !in k then [SkuCol] else if CatalogueCol !in k then [CatalogueCol] else [] by {
      assert [SkuCol, CatalogueCol][1..] == [CatalogueCol] && [CatalogueCol][1..] == [];
    }
  }

  /** The web file's "收货组织编码" column becomes the site code the
      reconciliation reads, cell for cell. */
  lemma WebSiteCodeFromSourceColumn(web: Frame, manual: Frame, master: Frame, site: Frame)
    requires WellFormed(web) && NoCollision(web.columns, WebColumns)
    requires WellFormed(manual) && NoCollision(manual.columns, ManualColumns)
    requires WellFormed(master) && NoCollision(master.columns, MasterColumns)
    requires WellFormed(site) && NoCollision(site.columns, SiteColumns)
    requires "收货组织编码" in web.columns
    requires Canonicalise(web, manual, master, site).Ok?
    ensures forall i :: 0 <= i < |web.rows| ==>
              Canonicalise(web, manual, master, site).value.web[i].siteCode == web.rows[i]["收货组织编码"]
  {
    assert Canonicalise(web, manual, master, site).value.web == OrderRows(Rename(web, WebColumns));
    OrderSiteCodes(web, WebColumns, "收货组织编码");
  }

  /** The manual file's "油站编码" column becomes the site code the
      reconciliation reads, cell for cell. */
  lemma ManualSiteCodeFromSourceColumn(web: Frame, manual: Frame, master: Frame, site: Frame)
    requires WellFormed(web) && NoCollision(web.columns, WebColumns)
    requires WellFormed(manual) && NoCollision(manual.columns, ManualColumns)
    requires WellFormed(master) && NoCollision(master.columns, MasterColumns)
    requires WellFormed(site) && NoCollision(site.columns, SiteColumns)
    requires "油站编码" in manual.columns
    requires Canonicalise(web, manual, master, site).Ok?
    ensures forall i :: 0 <= i < |manual.rows| ==>
              Canonicalise(web, manual, master, site).value.manual[i].siteCode == manual.rows[i]["油站编码"]
  {
    assert Canonicalise(web, manual, master, site).value.manual == OrderRows(Rename(manual, ManualColumns));
    OrderSiteCodes(manual, ManualColumns, "油站编码");
  }

  /** The site table's "site_code" and "old_code" columns become the new and
      legacy codes the joins match against. */
  lemma SiteCodesFromSourceColumns(web: Frame, manual: Frame, master: Frame, site: Frame)
    requires WellFormed(web) && NoCollision(web.columns, WebColumns)
    requires WellFormed(manual) && NoCollision(manual.columns, ManualColumns)
    requires WellFormed(master) && NoCollision(master.columns, MasterColumns)
    requires WellFormed(site) && NoCollision(site.columns, SiteColumns)
    requires "site_code" in site.columns && "old_code" in site.columns
    requires Canonicalise(web, manual, master, site).Ok?
    ensures forall i :: 0 <= i < |site.rows| ==>
              && Canonicalise(web, manual, master, site).value.sites[i].newCode == site.rows[i]["site_code"]
              && Canonicalise(web, manual, master, site).value.sites[i].legacyCode == site.rows[i]["old_code"]
  {
    assert Canonicalise(web, manual, master, site).value.sites == SiteRecords(Rename(site, SiteColumns));
    SiteRecordCodes(site);
  }

  /** An order file's column `src`, renamed to the site-code column, gives
      each order row its site code. */
  lemma OrderSiteCodes(f: Frame, m: map<string, string>, src: string)
    requires WellFormed(f) && NoCollision(f.columns, m)
    requires src in f.columns && RenameKey(m, src) == SiteCodeCol
    ensures forall i :: 0 <= i < |f.rows| ==> OrderRows(Rename(f, m))[i].siteCode == f.rows[i][src]
  {
    var g := Rename(f, m);
    forall i | 0 <= i < |f.rows| ensures OrderRows(g)[i].siteCode == f.rows[i][src] {
      assert src in f.rows[i];
    }
  }

  /** The site table's two code columns give each site record its codes. */
  lemma SiteRecordCodes(site: Frame)
    requires WellFormed(site) && NoCollision(site.columns, SiteColumns)
    requires "site_code" in site.columns && "old_code" in site.columns
    ensures forall i :: 0 <= i < |site.rows| ==>
              && SiteRecords(Rename(site, SiteColumns))[i].newCode == site.rows[i]["site_code"]
              && SiteRecords(Rename(site, SiteColumns))[i].legacyCode == site.rows[i]["old_code"]
  {
    var g := Rename(site, SiteColumns);
    assert RenameKey(SiteColumns, "site_code") == NewCodeCol;
    assert RenameKey(SiteColumns, "old_code") == LegacyCodeCol;
    forall i | 0 <= i < |site.rows|
      ensures SiteRecords(g)[i].newCode == site.rows[i]["site_code"]
      ensures SiteRecords(g)[i].legacyCode == site.rows[i]["old_code"]
    {
      assert "site_code" in site.rows[i] && "old_code" in site.rows[i];
    }
  }

  /** An order file's own "仓库" or "站点名称" column shadows the joined one. */
  lemma OwnWarehouseColumnShadows(web: Frame, manual: Frame, master: Frame, site: Frame)
    requires WellFormed(web) && NoCollision(web.columns, WebColumns)
    requires WellFormed(manual) && NoCollision(manual.columns, ManualColumns)
    requires WellFormed(master) && NoCollision(master.columns, MasterColumns)
    requires WellFormed(site) && NoCollision(site.columns, SiteColumns)
    requires Canonicalise(web, manual, master, site).Ok?
    ensures "仓库" in web.columns ==> Canonicalise(web, manual, master, site).value.webShadow.warehouse
    ensures "仓库" in manual.columns ==> Canonicalise(web, manual, master, site).value.manualShadow.warehouse
    ensures "站点名称" in web.columns ==> Canonicalise(web, manual, master, site).value.webShadow.siteName
    ensures "站点名称" in manual.columns ==> Canonicalise(web, manual, master, site).value.manualShadow.siteName
  {
    OwnColumnKept(web.columns, WebColumns, "仓库");
    OwnColumnKept(manual.columns, ManualColumns, "仓库");
    OwnColumnKept(web.columns, WebColumns, "站点名称");
    OwnColumnKept(manual.columns, ManualColumns, "站点名称");
  }

  /** A column the relabelling does not mention keeps its name. */
  lemma OwnColumnKept(cols: set<string>, m: map<string, string>, c: string)
    requires c !in m
    ensures c in cols ==> c in RenamedColumns(cols, m)
  {
    if c in cols {
      assert RenameKey(m, c) == c;
    }
  }
}
