/** One press of the "generate today's picking lists" button: load and check
    the inputs, reconcile them, record the distribution in the ledger and
    split the normal orders by warehouse. */
module Pipeline {
  import opened Cells
  import opened Canon
  import opened Reconcile
  import opened Classify
  import opened Grouping
  import opened Ledger

  /** Why a run stops before producing picking lists. */
  datatype Failure =
    | NoSites                     // the site table is empty
    | Schema(schema: SchemaError) // a column the run reads is missing
    | DropFailed(drop: KeyError)  // the double `drop` met a label already dropped

  /** The three selections shown after a successful check. */
  datatype Reports = Reports(abnormalSku: seq<Line>, abnormalSite: seq<Line>, normal: seq<Line>)

  /** The checking part of a run, as written: stop on an empty site table,
      on a missing column, or when the double `drop` raises; otherwise the
      two reports and the normal orders. */
  function Check(web: Frame, manual: Frame, master: Frame, site: Frame): (r: Result<Reports, Failure>)
    requires WellFormed(web) && NoCollision(web.columns, WebColumns)
    requires WellFormed(manual) && NoCollision(manual.columns, ManualColumns)
    requires WellFormed(master) && NoCollision(master.columns, MasterColumns)
    requires WellFormed(site) && NoCollision(site.columns, SiteColumns)
    ensures r == Err(NoSites) <==> site.rows == []
    ensures r.Err? && r.error.Schema? ==> site.rows != [] && Canonicalise(web, manual, master, site) == Err(r.error.schema)
    ensures r.Err? && r.error.DropFailed? ==>
              Canonicalise(web, manual, master, site).Ok? && FailsBoth(Orders(Canonicalise(web, manual, master, site).value))
    ensures r.Ok? ==>
              && site.rows != [] && Canonicalise(web, manual, master, site).Ok?
              && var orders := Orders(Canonicalise(web, manual, master, site).value);
              && !FailsBoth(orders)
              && r.value.normal == NormalOrders(orders)
              && r.value.abnormalSku == AbnormalSku(orders)
              && r.value.abnormalSite == AbnormalSite(orders)
              && forall l :: l in r.value.normal ==> l.warehouse != Missing && l.status == Text(Orderable)
  {
    if site.rows == [] then Err(NoSites)
    else
      match Canonicalise(web, manual, master, site)
      case Err(e) => Err(Schema(e))
      case Ok(inp) =>
        var orders := Orders(inp);
        NormalAsWrittenRaises(orders);
        match NormalAsWritten(orders)
        case Err(e) => Err(DropFailed(e))
        case Ok(normal) =>
          NormalAsWrittenAgrees(orders);
          Ok(Reports(AbnormalSku(orders), AbnormalSite(orders), normal))
  }

  /** An order file that already has a "仓库" column gets its joined
      warehouse only under a suffixed name, so every line of that channel
      lands in the abnormal-site report and none is normal. */
  lemma OwnWarehouseColumnReportsAbnormalSite(web: Frame, manual: Frame, master: Frame, site: Frame, l: Line)
    requires WellFormed(web) && NoCollision(web.columns, WebColumns)
    requires WellFormed(manual) && NoCollision(manual.columns, ManualColumns)
    requires WellFormed(master) && NoCollision(master.columns, MasterColumns)
    requires WellFormed(site) && NoCollision(site.columns, SiteColumns)
    requires Check(web, manual, master, site).Ok?
    requires l in Orders(Canonicalise(web, manual, master, site).value)
    requires (l.origin == Web && "仓库" in web.columns) || (l.origin == Manual && "仓库" in manual.columns)
    ensures l in Check(web, manual, master, site).value.abnormalSite
    ensures l !in Check(web, manual, master, site).value.normal
  {
    var inp := Canonicalise(web, manual, master, site).value;
    OwnWarehouseColumnShadows(web, manual, master, site);
    ShadowedWarehouseMissing(inp, l);
    assert l in AbnormalSite(Orders(inp));
  }

  /** What a successful run yields: the reports, the two ledger counters and
      one picking list per warehouse. */
  datatype Outcome = Outcome(reports: Reports, inserted: nat, skipped: nat, lists: seq<PickingList>)

  /** A full run against the ledger. A run that stops leaves the ledger as
      it was; a run that gets through records the normal orders' new pairs,
      and its picking lists hold every normal line exactly once. */
  method Run(ledger: ActivityLedger, web: Frame, manual: Frame, master: Frame, site: Frame)
    returns (r: Result<Outcome, Failure>)
    requires WellFormed(web) && NoCollision(web.columns, WebColumns)
    requires WellFormed(manual) && NoCollision(manual.columns, ManualColumns)
    requires WellFormed(master) && NoCollision(master.columns, MasterColumns)
    requires WellFormed(site) && NoCollision(site.columns, SiteColumns)
    modifies ledger
    ensures r.Err? <==> Check(web, manual, master, site).Err?
    ensures r.Err? ==> r.error == Check(web, manual, master, site).error && ledger.records == old(ledger.records)
    ensures UniqueKeys(old(ledger.records)) ==> UniqueKeys(ledger.records)
    ensures r.Ok? ==>
              && r.value.reports == Check(web, manual, master, site).value
              && var keys := KeysOf(r.value.reports.normal);
              && Tally(Keys(ledger.records), r.value.inserted, r.value.skipped) == Distribute(Keys(old(ledger.records)), keys)
              && ledger.records == old(ledger.records) + NewRecords(keys, Keys(old(ledger.records)))
              && r.value.lists == PickingLists(r.value.reports.normal)
              && multiset(Flatten(r.value.lists)) == multiset(r.value.reports.normal)
  {
    var checked := Check(web, manual, master, site);
    match checked {
      case Err(e) =>
        r := Err(e);
      case Ok(reports) =>
        var normal := reports.normal;
        assert forall k :: 0 <= k < |normal| ==> normal[k].warehouse != Missing by {
          forall k | 0 <= k < |normal| ensures normal[k].warehouse != Missing {
            assert normal[k] in normal;
          }
        }
        PickingListsPartition(normal);
        var inserted, skipped := ledger.RecordDistribution(normal);
        var lists := PickingLists(normal);
        r := Ok(Outcome(reports, inserted, skipped, lists));
    }
  }
}
