/** The join step of the reconciliation: each channel's order lines are
    matched against the site table in that channel's own code space, tagged
    with their origin, concatenated web first, and matched against the SKU
    master. Joins are pandas left merges: a line with several matching
    rows on the right appears once per match, a line with none appears once
    with missing values. */
module Reconcile {
  import opened Cells
  import opened Canon
  import Seqs

  /** The channel an order line came from. */
  datatype Origin = Web | Manual

  /** The value written into the origin column ("来源") for each channel. */
  function OriginLabel(o: Origin): string
  {
    match o
    case Web => "官网订单"
    case Manual => "手工订单"
  }

  /** An order line after the joins: its origin, its trimmed site code, its
      SKU and quantity as read, and what the joins attached (warehouse and
      site name from the site table, ordering status from the SKU master;
      `Missing` where nothing matched). */
  datatype Line = Line(origin: Origin, siteCode: string, sku: Cell, quantity: Cell,
                       warehouse: Cell, siteName: Cell, status: Cell)

  /** The join key of an order line's site code: converted to text, then
      stripped of surrounding whitespace. */
  function SiteKey(c: Cell): string
  {
    Strip(AsStr(c))
  }

  /** " N100 " and "N100" give the same join key. */
  lemma SiteKeyIgnoresPadding(p: string, code: string, q: string)
    requires AllSpace(p) && AllSpace(q)
    ensures SiteKey(Text(p + code + q)) == SiteKey(Text(code))
  {
    StripIgnoresPadding(p, code, q);
  }

  /** A numeric site code joins as its decimal text. */
  lemma SiteKeyOfNumber(n: int)
    ensures SiteKey(Int(n)) == Decimal(n)
  {
    StripDecimal(n);
  }

  /** The code of a site record in the code space of a channel: web lines
      carry new codes, manual lines legacy codes. */
  function CodeIn(rec: SiteRecord, o: Origin): Cell
  {
    match o
    case Web => rec.newCode
    case Manual => rec.legacyCode
  }

  function HasCode(o: Origin, key: string): SiteRecord -> bool
  {
    (rec: SiteRecord) => CodeIn(rec, o) == Text(key)
  }

  /** The site-table rows a key matches in a channel's code space, in table order. */
  function SiteMatches(sites: seq<SiteRecord>, o: Origin, key: string): (r: seq<SiteRecord>)
    ensures forall rec :: rec in r <==> rec in sites && CodeIn(rec, o) == Text(key)
  {
    Seqs.FilterMembers(sites, HasCode(o, key));
    Seqs.Filter(sites, HasCode(o, key))
  }

  /** A joined value as the later steps see it: missing when the order file
      already had the column, so that the merge suffixed both copies. */
  function Unless(shadowed: bool, c: Cell): Cell
  {
    if shadowed then Missing else c
  }

  /** The rows the left merge of one order row against the site table
      produces; the SKU status is not attached yet. */
  function SiteJoined(row: OrderRow, o: Origin, sites: seq<SiteRecord>, sh: Shadow): seq<Line>
  {
    var key := SiteKey(row.siteCode);
    var ms := SiteMatches(sites, o, key);
    if ms == [] then [Line(o, key, row.sku, row.quantity, Missing, Missing, Missing)]
    else seq(|ms|, j requires 0 <= j < |ms| =>
               Line(o, key, row.sku, row.quantity,
                    Unless(sh.warehouse, ms[j].warehouse), Unless(sh.siteName, ms[j].name), Missing))
  }

  function SiteJoin(o: Origin, sites: seq<SiteRecord>, sh: Shadow): OrderRow -> seq<Line>
  {
    (row: OrderRow) => SiteJoined(row, o, sites, sh)
  }

  /** One channel's order lines, left-joined against the site table in that
      channel's code space and tagged with the channel. */
  function JoinChannel(rows: seq<OrderRow>, o: Origin, sites: seq<SiteRecord>, sh: Shadow): seq<Line>
  {
    Seqs.FlatMap(rows, SiteJoin(o, sites, sh))
  }

  function HasSku(sku: Cell): SkuEntry -> bool
  {
    (e: SkuEntry) => e.sku == sku
  }

  /** The SKU-master rows with a given SKU, in table order. Missing SKUs
      match missing SKUs, as pandas merge keys do. */
  function SkuMatches(master: seq<SkuEntry>, sku: Cell): (r: seq<SkuEntry>)
    ensures forall e :: e in r <==> e in master && e.sku == sku
  {
    Seqs.FilterMembers(master, HasSku(sku));
    Seqs.Filter(master, HasSku(sku))
  }

  /** The rows the left merge of one line against the SKU master produces. */
  function SkuJoined(l: Line, master: seq<SkuEntry>): seq<Line>
  {
    var ms := SkuMatches(master, l.sku);
    if ms == [] then [l.(status := Missing)]
    else seq(|ms|, j requires 0 <= j < |ms| => l.(status := ms[j].status))
  }

  function SkuJoin(master: seq<SkuEntry>): Line -> seq<Line>
  {
    (l: Line) => SkuJoined(l, master)
  }

  /** The combined, enriched order lines: web lines joined on new codes,
      then manual lines joined on legacy codes, all joined on SKU. */
  function Orders(inp: Inputs): seq<Line>
  {
    Seqs.FlatMap(Combined(inp), SkuJoin(inp.master))
  }

  // ---------------------------------------------------------------------
  // Reference lookups: one site record and one SKU entry per line.

  /** The first site record whose code in the channel's code space is `key`. */
  function LookupSite(sites: seq<SiteRecord>, o: Origin, key: string): (r: Option<SiteRecord>)
    ensures r.Some? ==> r.value in sites && CodeIn(r.value, o) == Text(key)
    ensures r.None? ==> forall i :: 0 <= i < |sites| ==> CodeIn(sites[i], o) != Text(key)
  {
    if sites == [] then None
    else if CodeIn(sites[0], o) == Text(key) then Some(sites[0])
    else LookupSite(sites[1..], o, key)
  }

  /** The first SKU-master entry for `sku`. */
  function LookupSku(master: seq<SkuEntry>, sku: Cell): (r: Option<SkuEntry>)
    ensures r.Some? ==> r.value in master && r.value.sku == sku
    ensures r.None? ==> forall i :: 0 <= i < |master| ==> master[i].sku != sku
  {
    if master == [] then None
    else if master[0].sku == sku then Some(master[0])
    else LookupSku(master[1..], sku)
  }

  /** What one order row should become: its site looked up in its channel's
      code space, and its SKU's status looked up in the master. */
  function SiteResolved(row: OrderRow, o: Origin, sites: seq<SiteRecord>, sh: Shadow): Line
  {
    var key := SiteKey(row.siteCode);
    match LookupSite(sites, o, key)
    case Some(rec) => Line(o, key, row.sku, row.quantity, Unless(sh.warehouse, rec.warehouse), Unless(sh.siteName, rec.name), Missing)
    case None => Line(o, key, row.sku, row.quantity, Missing, Missing, Missing)
  }

  function WithStatus(l: Line, master: seq<SkuEntry>): Line
  {
    match LookupSku(master, l.sku)
    case Some(e) => l.(status := e.status)
    case None => l.(status := Missing)
  }

  function Resolve(row: OrderRow, o: Origin, sites: seq<SiteRecord>, sh: Shadow, master: seq<SkuEntry>): Line
  {
    WithStatus(SiteResolved(row, o, sites, sh), master)
  }

  /** Site codes are unique within a code space (missing codes aside). */
  predicate UniqueCodes(sites: seq<SiteRecord>, o: Origin)
  {
    forall i, j :: 0 <= i < j < |sites| && CodeIn(sites[i], o).Text? ==> CodeIn(sites[i], o) != CodeIn(sites[j], o)
  }

  /** SKUs are unique in the master. */
  predicate UniqueSkus(master: seq<SkuEntry>)
  {
    forall i, j :: 0 <= i < j < |master| ==> master[i].sku != master[j].sku
  }

  /** With unique codes, the merge against the site table matches at most
      the one record a lookup finds. */
  lemma SiteMatchesAtMostOne(sites: seq<SiteRecord>, o: Origin, key: string)
    requires UniqueCodes(sites, o)
    ensures SiteMatches(sites, o, key) == match LookupSite(sites, o, key)
                                           case Some(rec) => [rec]
                                           case None => []
  {
    match LookupSite(sites, o, key)
    case None =>
      Seqs.FilterNone(sites, HasCode(o, key));
    case Some(rec) =>
      var i :| 0 <= i < |sites| && sites[i] == rec;
      Seqs.FilterSingle(sites, HasCode(o, key), i);
  }

  /** With unique SKUs, the merge against the master matches at most the one
      entry a lookup finds. */
  lemma SkuMatchesAtMostOne(master: seq<SkuEntry>, sku: Cell)
    requires UniqueSkus(master)
    ensures SkuMatches(master, sku) == match LookupSku(master, sku)
                                        case Some(e) => [e]
                                        case None => []
  {
    match LookupSku(master, sku)
    case None =>
      Seqs.FilterNone(master, HasSku(sku));
    case Some(e) =>
      var i :| 0 <= i < |master| && master[i] == e;
      Seqs.FilterSingle(master, HasSku(sku), i);
  }

  /** With unique site codes in a channel's code space, joining that
      channel neither drops nor repeats lines: line i of the result is
      order row i, resolved. */
  lemma {:induction false} JoinChannelOneToOne(rows: seq<OrderRow>, o: Origin, sites: seq<SiteRecord>, sh: Shadow)
    requires UniqueCodes(sites, o)
    ensures |JoinChannel(rows, o, sites, sh)| == |rows|
    ensures forall i :: 0 <= i < |rows| ==> JoinChannel(rows, o, sites, sh)[i] == SiteResolved(rows[i], o, sites, sh)
  {
    var g := (row: OrderRow) => SiteResolved(row, o, sites, sh);
    forall i | 0 <= i < |rows|
      ensures SiteJoin(o, sites, sh)(rows[i]) == [g(rows[i])]
    {
      SiteMatchesAtMostOne(sites, o, SiteKey(rows[i].siteCode));
    }
    Seqs.FlatMapOneToOne(rows, SiteJoin(o, sites, sh), g);
  }

  /** With unique SKUs in the master, the SKU join neither drops nor
      repeats lines: line i of the result is line i with its status. */
  lemma {:induction false} SkuJoinOneToOne(lines: seq<Line>, master: seq<SkuEntry>)
    requires UniqueSkus(master)
    ensures |Seqs.FlatMap(lines, SkuJoin(master))| == |lines|
    ensures forall i :: 0 <= i < |lines| ==> Seqs.FlatMap(lines, SkuJoin(master))[i] == WithStatus(lines[i], master)
  {
    var g := (l: Line) => WithStatus(l, master);
    forall i | 0 <= i < |lines|
      ensures SkuJoin(master)(lines[i]) == [g(lines[i])]
    {
      SkuMatchesAtMostOne(master, lines[i].sku);
    }
    Seqs.FlatMapOneToOne(lines, SkuJoin(master), g);
  }

  /** Web lines joined on new codes, then manual lines joined on legacy
      codes: the union the SKU join is applied to. */
  function Combined(inp: Inputs): seq<Line>
  {
    JoinChannel(inp.web, Web, inp.sites, inp.webShadow) + JoinChannel(inp.manual, Manual, inp.sites, inp.manualShadow)
  }

  /** With unique site codes in both code spaces, the union holds every web
      row, then every manual row, in file order, each resolved in its own
      channel's code space. */
  lemma CombinedOneToOne(inp: Inputs)
    requires UniqueCodes(inp.sites, Web) && UniqueCodes(inp.sites, Manual)
    ensures |Combined(inp)| == |inp.web| + |inp.manual|
    ensures forall i :: 0 <= i < |inp.web| ==> Combined(inp)[i] == SiteResolved(inp.web[i], Web, inp.sites, inp.webShadow)
    ensures forall i :: |inp.web| <= i < |inp.web| + |inp.manual| ==>
              Combined(inp)[i] == SiteResolved(inp.manual[i - |inp.web|], Manual, inp.sites, inp.manualShadow)
  {
    var w, m := JoinChannel(inp.web, Web, inp.sites, inp.webShadow), JoinChannel(inp.manual, Manual, inp.sites, inp.manualShadow);
    JoinChannelOneToOne(inp.web, Web, inp.sites, inp.webShadow);
    JoinChannelOneToOne(inp.manual, Manual, inp.sites, inp.manualShadow);
    assert Combined(inp) == w + m;
  }

  /** The combined orders, when every table's keys are unique: first every
      web row, then every manual row, each in file order, each resolved in
      its own channel's code space and tagged with its channel. */
  lemma {:induction false} OrdersOneToOne(inp: Inputs)
    requires UniqueCodes(inp.sites, Web) && UniqueCodes(inp.sites, Manual) && UniqueSkus(inp.master)
    ensures |Orders(inp)| == |inp.web| + |inp.manual|
    ensures forall i :: 0 <= i < |inp.web| ==>
              Orders(inp)[i] == Resolve(inp.web[i], Web, inp.sites, inp.webShadow, inp.master)
    ensures forall i :: |inp.web| <= i < |inp.web| + |inp.manual| ==>
              Orders(inp)[i] == Resolve(inp.manual[i - |inp.web|], Manual, inp.sites, inp.manualShadow, inp.master)
  {
    CombinedOneToOne(inp);
    SkuJoinOneToOne(Combined(inp), inp.master);
  }

  /** Every line a site join produces keeps its row's channel, key, SKU and
      quantity, and a warehouse it carries was not shadowed and comes from a
      site record whose code in that channel's code space is the line's key. */
  lemma SiteJoinedSound(row: OrderRow, o: Origin, sites: seq<SiteRecord>, sh: Shadow, l: Line)
    requires l in SiteJoined(row, o, sites, sh)
    ensures l.origin == o && l.siteCode == SiteKey(row.siteCode)
    ensures l.sku == row.sku && l.quantity == row.quantity
    ensures l.warehouse != Missing ==>
              && !sh.warehouse
              && exists rec :: rec in sites && CodeIn(rec, o) == Text(l.siteCode) && rec.warehouse == l.warehouse
  {
    var ms := SiteMatches(sites, o, SiteKey(row.siteCode));
    if ms != [] {
      var j :| 0 <= j < |ms| && SiteJoined(row, o, sites, sh)[j] == l;
      assert ms[j] in ms;
    }
  }

  /** The shadowed columns of the order file of a channel. */
  function ShadowIn(inp: Inputs, o: Origin): Shadow
  {
    match o
    case Web => inp.webShadow
    case Manual => inp.manualShadow
  }

  /** Site resolution is scoped by channel, whatever the tables hold: a line
      of the combined orders that has a warehouse got it from a site record
      whose code in the line's own channel's code space (new codes for web
      lines, legacy codes for manual lines) equals the line's site code, and
      its channel's order file had no warehouse column of its own. */
  lemma ResolutionIsScoped(inp: Inputs, l: Line)
    requires l in Orders(inp)
    requires l.warehouse != Missing
    ensures !ShadowIn(inp, l.origin).warehouse
    ensures exists rec :: rec in inp.sites && CodeIn(rec, l.origin) == Text(l.siteCode) && rec.warehouse == l.warehouse
  {
    var c := Combined(inp);
    Seqs.FlatMapSource(c, SkuJoin(inp.master), l);
    var i :| 0 <= i < |c| && l in SkuJoined(c[i], inp.master);
    var l0 := c[i];
    SkuJoinedSound(l0, inp.master, l);
    var w := JoinChannel(inp.web, Web, inp.sites, inp.webShadow);
    var m := JoinChannel(inp.manual, Manual, inp.sites, inp.manualShadow);
    assert l0 in w + m;
    if l0 in w {
      JoinChannelSound(inp.web, Web, inp.sites, inp.webShadow, l0);
    } else {
      JoinChannelSound(inp.manual, Manual, inp.sites, inp.manualShadow, l0);
    }
    var rec :| rec in inp.sites && CodeIn(rec, l0.origin) == Text(l0.siteCode) && rec.warehouse == l0.warehouse;
  }

  /** A line whose site code is no site's code in its own channel's code
      space gets no warehouse, even when the code is some site's code in
      the other channel's space. */
  lemma OtherCodeSpaceIgnored(inp: Inputs, l: Line)
    requires l in Orders(inp)
    requires forall rec :: rec in inp.sites ==> CodeIn(rec, l.origin) != Text(l.siteCode)
    ensures l.warehouse == Missing
  {
    if l.warehouse != Missing {
      ResolutionIsScoped(inp, l);
      assert false;
    }
  }

  /** When a channel's order file already has a warehouse column, none of
      that channel's lines gets a warehouse from the join. */
  lemma ShadowedWarehouseMissing(inp: Inputs, l: Line)
    requires l in Orders(inp)
    requires ShadowIn(inp, l.origin).warehouse
    ensures l.warehouse == Missing
  {
    if l.warehouse != Missing {
      ResolutionIsScoped(inp, l);
      assert false;
    }
  }

  /** The union tags its lines by channel: the joined web lines come first
      and carry "官网订单", then the joined manual lines carry "手工订单". */
  lemma UnionTagsOrigin(inp: Inputs)
    ensures var w := JoinChannel(inp.web, Web, inp.sites, inp.webShadow);
      && |w| <= |Combined(inp)|
      && (forall i :: 0 <= i < |w| ==> OriginLabel(Combined(inp)[i].origin) == "官网订单")
      && (forall i :: |w| <= i < |Combined(inp)| ==> OriginLabel(Combined(inp)[i].origin) == "手工订单")
  {
    var w := JoinChannel(inp.web, Web, inp.sites, inp.webShadow);
    var m := JoinChannel(inp.manual, Manual, inp.sites, inp.manualShadow);
    ChannelOrigin(inp.web, Web, inp.sites, inp.webShadow);
    ChannelOrigin(inp.manual, Manual, inp.sites, inp.manualShadow);
    assert Combined(inp) == w + m;
  }

  /** Every line of a joined channel carries that channel. */
  lemma ChannelOrigin(rows: seq<OrderRow>, o: Origin, sites: seq<SiteRecord>, sh: Shadow)
    ensures forall i :: 0 <= i < |JoinChannel(rows, o, sites, sh)| ==> JoinChannel(rows, o, sites, sh)[i].origin == o
  {
    var js := JoinChannel(rows, o, sites, sh);
    forall i | 0 <= i < |js| ensures js[i].origin == o {
      assert js[i] in js;
      JoinChannelSound(rows, o, sites, sh, js[i]);
    }
  }

  /** The SKU join changes nothing but the status. */
  lemma SkuJoinedSound(l0: Line, master: seq<SkuEntry>, l: Line)
    requires l in SkuJoined(l0, master)
    ensures l == l0.(status := l.status)
  {
    var ms := SkuMatches(master, l0.sku);
    if ms != [] {
      var j :| 0 <= j < |ms| && SkuJoined(l0, master)[j] == l;
    }
  }

  /** A line of a joined channel carries the channel and, when it has a
      warehouse, got it unshadowed from a record matching its key in that
      channel. */
  lemma JoinChannelSound(rows: seq<OrderRow>, o: Origin, sites: seq<SiteRecord>, sh: Shadow, l: Line)
    requires l in JoinChannel(rows, o, sites, sh)
    ensures l.origin == o
    ensures l.warehouse != Missing ==>
              && !sh.warehouse
              && exists rec :: rec in sites && CodeIn(rec, l.origin) == Text(l.siteCode) && rec.warehouse == l.warehouse
  {
    Seqs.FlatMapSource(rows, SiteJoin(o, sites, sh), l);
    var k :| 0 <= k < |rows| && l in SiteJoined(rows[k], o, sites, sh);
    SiteJoinedSound(rows[k], o, sites, sh, l);
  }
}
