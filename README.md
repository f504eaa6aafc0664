# station-oms reconciliation, modelled in Dafny

The tool turns one day's fuel-station orders into per-warehouse picking lists.
Orders come from two channels:

- the web channel ("官网订单"), which identifies a site by its **new** code;
- the manual channel ("手工订单"), which uses the site's **legacy** code.

A press of "一键生成今日拣货单" does the following:

1. It relabels the columns of the four tables: the two order files, the SKU master and the hosted site table.
2. It trims each order's site code.
3. It left-joins web orders on new codes and manual orders on legacy codes.
4. It tags each line with its origin and concatenates the lines, web first.
5. It left-joins the result against the SKU master.
6. It selects the abnormal-SKU and abnormal-site lines.
7. It takes the remaining normal lines and records each new (site, SKU) pair in the `activity_records` ledger, counting inserted and skipped lines.
8. It offers one picking list per warehouse.

The model is split into modules:

- `Cells`: cell values, Python's `str.strip()` and `astype(str)`.
- `Seqs`: order-preserving selection by a mask, and the flat map that gives a left merge its shape.
- `Canon`: frames, column relabelling, and the column checks that stop a run.
- `Reconcile`: the two site joins, the union and the SKU join. The model includes pandas' row multiplication on duplicate keys. Key uniqueness appears only as a lemma hypothesis.
- `Classify`: the three selections, and the double `drop` as written.
- `Ledger`: the check-then-insert loop. It is a `class ActivityLedger` whose `records` set is updated by `RecordDistribution`. The method is proved against the fold `Distribute`.
- `Grouping`: the per-warehouse picking lists.
- `Pipeline`: one run end to end. `Check` is the pure part up to the reports; `Run` also updates the ledger.

Details of the code that the model follows:

- Only the site-code column is converted to text and trimmed. SKU codes join as read, so a numeric and a textual SKU do not match.
- A missing required column raises pandas' `KeyError` at the point where the column is first read. The checks happen in that order: the web site code, the manual site code, the site-table columns of each join, the SKU master's two columns, and the SKU column of the combined orders. Last come the catalogue and warehouse columns that the classification reads.
- A merge suffixes a column that both of its sides have (`_x`, `_y`). An order file that already has "仓库" or "站点名称" therefore keeps the joined value out of that column for its own lines: they get no warehouse and land in the abnormal-site report. An order file with "油站订货目录", or "仓库" in both order files, leaves the combined orders without that column, and the classification raises `KeyError`.
- The quantity column is never required.
- Duplicate codes in the site table, or duplicate SKUs in the master, multiply lines rather than being rejected.
- A line that fails both checks makes the second `drop` raise (see Findings).
- The ledger is queried by (site code, SKU code) whatever the activity name. The site code is the one the line's own channel uses: a new code for web lines, a legacy code for manual lines.

## Model

| member | source | states |
|---|---|---|
| Cells.Strip | app.py:101-102 | the result is a middle slice of the input that starts and ends with non-whitespace, and everything cut off on either side is whitespace |
| Cells.StripUnique | app.py:101-102 | any slice bounded by whitespace-only ends and non-whitespace edge characters is the stripped value: `str.strip()` is determined by that property |
| Cells.StripIdempotent | app.py:101-102 | trimming an already trimmed code changes nothing |
| Cells.StripIgnoresPadding | app.py:101-102 | surrounding a value with whitespace on either side does not change what it strips to |
| Cells.StripDecimal | app.py:101-102 | the text form of an integer code is left unchanged by trimming |
| Cells.Digits | app.py:101-102 | the decimal digits of a natural number, with no leading zero: only zero itself starts with '0', and it is written "0" |
| Cells.Decimal | app.py:101-102 | Python's `str()` of an integer: non-empty digits without leading zeros, with a leading '-' exactly for negative numbers |
| Cells.DigitsRoundTrip | app.py:101-102 | reading the digits of a natural number back, most significant first, gives the number |
| Cells.DigitsInjective | app.py:101-102 | different natural numbers have different digit strings |
| Cells.DecimalInjective | app.py:101-102 | the decimal text of an integer determines the integer, sign included |
| Cells.AsStr | app.py:101-102 | characterised by Reconcile.SiteKeyOfNumber, Ledger.KeyOf and Cells.DecimalInjective: text stays as it is, an integer becomes its decimal text (different integers give different texts), a missing value becomes "nan" |
| Canon.RenameRow | app.py:65-91 | relabelling a row keeps every cell under its new column name, and the row's columns are exactly the relabelled columns |
| Canon.Rename | app.py:65-91 | relabelling a frame keeps its row count and order and moves every cell of every row to its column's new name |
| Canon.FirstMissing | app.py:105-131 | yields a missing required column preceded in the list only by present ones, and yields nothing exactly when all required columns are present |
| Canon.ShadowOf | app.py:105-118 | an order file shadows the joined warehouse or site name exactly when it already has that column |
| Canon.CanonicaliseRows | app.py:65-131 | on success the web and manual lines, the site records and the master entries are read row for row, in file order, from the relabelled frames' site code, SKU, quantity, new and legacy code, warehouse, site name and catalogue columns |
| Canon.ChecksInReadOrder | app.py:101-137 | the error reported is that of the first read that fails, in the order the run reads columns: the manual site code once the web one is there, then the site table's new code, warehouse, site name and legacy code, then the master's SKU and catalogue, then the combined SKU, catalogue and warehouse columns |
| Canon.Canonicalise | app.py:65-137 | the inputs are accepted exactly when every column the run reads exists after relabelling (the combined SKU column from either order file), neither order file has the catalogue column, and not both have a warehouse column; each error names a column that the frame read there lacks; on success the row counts are kept and each order file's shadowed columns are recorded, and the rows' contents are those stated by Canon.CanonicaliseRows |
| Canon.OwnWarehouseColumnShadows | app.py:105-118 | an order file with its own "仓库" or "站点名称" column has that joined column shadowed |
| Canon.WebSiteCodeFromSourceColumn | app.py:65-66 | each web order's site code is its "收货组织编码" cell |
| Canon.ManualSiteCodeFromSourceColumn | app.py:72-73 | each manual order's site code is its "油站编码" cell |
| Canon.SiteCodesFromSourceColumns | app.py:86-88 | each site record's new and legacy codes are its "site_code" and "old_code" cells |
| Reconcile.SiteKey | app.py:101-102 | characterised by Reconcile.SiteKeyIgnoresPadding and Reconcile.SiteKeyOfNumber: the key is the cell's text with surrounding whitespace removed |
| Reconcile.SiteKeyIgnoresPadding | app.py:101-102 | " N100 " and "N100" give the same join key |
| Reconcile.SiteKeyOfNumber | app.py:101-102 | a numeric site code joins as its decimal text |
| Reconcile.SiteMatches | app.py:105-118 | the site rows a key matches are exactly the site records whose code, in the channel's own code space, is that key |
| Reconcile.SkuMatches | app.py:127-131 | the master rows a line matches are exactly those with its SKU |
| Reconcile.SiteJoined | app.py:105-118 | characterised by Reconcile.SiteJoinedSound and Reconcile.SiteMatchesAtMostOne: one line per matching site record, or one line without site data |
| Reconcile.JoinChannel | app.py:101-118 | characterised by Reconcile.JoinChannelOneToOne and Reconcile.JoinChannelSound: one channel's rows joined in that channel's code space |
| Reconcile.Combined | app.py:121-124 | characterised by Reconcile.CombinedOneToOne and Reconcile.UnionTagsOrigin: the joined web lines, then the joined manual lines |
| Reconcile.SkuJoined | app.py:127-131 | characterised by Reconcile.SkuJoinedSound and Reconcile.SkuMatchesAtMostOne: one line per matching master entry, or one line without a status |
| Reconcile.Orders | app.py:127-131 | characterised by Reconcile.OrdersOneToOne and Reconcile.ResolutionIsScoped: the combined lines joined against the SKU master |
| Reconcile.LookupSite | app.py:105-118 | reference lookup: a found record has the key in the channel's code space; when none is found, no record has it |
| Reconcile.LookupSku | app.py:127-131 | reference lookup: a found entry has the SKU; when none is found, no entry has it |
| Reconcile.SiteMatchesAtMostOne | app.py:105-118 | with unique codes in a code space, the merge matches exactly the record the lookup finds, or nothing |
| Reconcile.SkuMatchesAtMostOne | app.py:127-131 | with unique SKUs, the merge matches exactly the entry the lookup finds, or nothing |
| Reconcile.JoinChannelOneToOne | app.py:101-118 | with unique codes, joining a channel keeps its line count and order, and line i is order row i resolved in that channel's code space |
| Reconcile.SkuJoinOneToOne | app.py:127-131 | with unique SKUs, the SKU join keeps line count and order and only attaches the looked-up status |
| Reconcile.CombinedOneToOne | app.py:105-124 | the union holds every web row then every manual row, each in file order and resolved in its own channel's code space |
| Reconcile.OrdersOneToOne | app.py:101-131 | with all keys unique, the combined orders are the web rows then the manual rows, each resolved for site and SKU, in file order |
| Reconcile.SiteJoinedSound | app.py:105-118 | a joined line keeps its channel, trimmed key, SKU and quantity, and any warehouse it carries was not shadowed and belongs to a record matching the key in that channel's code space |
| Reconcile.JoinChannelSound | app.py:105-122 | every line of a joined channel carries that channel as its origin and takes its warehouse only from a record that matches in that channel's code space, and only when that channel's order file had no warehouse column |
| Reconcile.SkuJoinedSound | app.py:127-131 | the SKU join changes nothing but the status |
| Reconcile.ResolutionIsScoped | app.py:105-124 | for any tables at all, a combined line with a warehouse got it from a site whose code in the line's own code space (new for web, legacy for manual) is the line's site code, and its order file had no warehouse column of its own |
| Reconcile.ShadowedWarehouseMissing | app.py:105-124 | when a channel's order file already has a warehouse column, none of that channel's lines gets a warehouse |
| Reconcile.UnionTagsOrigin | app.py:121-124 | the union holds the joined web lines first, all labelled "官网订单", then the joined manual lines, all labelled "手工订单" |
| Reconcile.OtherCodeSpaceIgnored | app.py:105-118 | a line whose code appears only in the other channel's code space (a manual line matching only a new code, say) gets no warehouse |
| Classify.AbnormalSku | app.py:133-136 | exactly the lines whose catalogue status is missing or differs from "油站可订" |
| Classify.AbnormalSite | app.py:137 | exactly the lines without a warehouse, whatever their SKU status |
| Classify.NormalOrders | app.py:138 | exactly the lines in neither report; each has a warehouse and the orderable status |
| Classify.ClassificationKeepsOrder | app.py:133-138 | each of the three selections is the subsequence of the combined orders at the positions that meet its condition |
| Classify.NormalAndFlaggedPartition | app.py:133-138 | the normal lines and the flagged lines together hold every line exactly as often as the combined orders do, and a line is flagged exactly when it is in one of the two reports |
| Classify.Indexed | app.py:124-131 | the combined orders carry the row labels 0 to n-1 in order |
| Classify.Drop | app.py:138 | fails exactly when some label to drop is not in the frame, and otherwise keeps exactly the rows whose label is not dropped |
| Classify.NormalAsWritten | app.py:138 | characterised by Classify.NormalAsWrittenRaises and Classify.NormalAsWrittenAgrees: the two drops in sequence, as written |
| Classify.NormalAsWrittenRaises | app.py:138 | the double `drop` raises exactly when some line fails both checks |
| Classify.NormalAsWrittenAgrees | app.py:138 | when no line fails both checks, the double `drop` yields exactly the normal orders |
| Classify.DoubleFailureRaises | app.py:133-138 | a single web line with an unknown site and an unknown SKU makes the double `drop` raise |
| Grouping.Warehouses | app.py:192 | the listed warehouses are distinct, and they are exactly the non-missing warehouses of the lines |
| Grouping.FirstAt | app.py:192 | the position of a warehouse's first line |
| Grouping.WarehousesInFirstAppearanceOrder | app.py:192 | warehouses are listed in the order of their first line |
| Grouping.Group | app.py:193 | characterised by Grouping.PickingListsContents: the lines of one warehouse, in order |
| Grouping.PickingLists | app.py:192-193 | characterised by Grouping.PickingListsCover, Grouping.PickingListsContents and Grouping.PickingListsPartition: one list per listed warehouse |
| Grouping.ListsForSpec | app.py:192-193 | list i is for warehouse i and holds that warehouse's lines in order |
| Grouping.PickingListsCover | app.py:192-193 | there is exactly one picking list per distinct warehouse of the normal lines |
| Grouping.PickingListsContents | app.py:193 | each picking list is non-empty and holds exactly the lines of its warehouse, in order |
| Grouping.FlattenSelects | app.py:192-193 | for distinct warehouses, the lists together hold each line of those warehouses exactly as often as the input |
| Grouping.PickingListsPartition | app.py:192-193 | when every line has a warehouse, the picking lists together hold every normal line exactly as often as the input does |
| Ledger.KeyOf | app.py:152-153 | a line's ledger pair is its site code and the text of its SKU: a text SKU as it is, an integer SKU as its decimal text, a missing SKU as "nan" |
| Ledger.NumericSkusKeepKeysApart | app.py:152-153 | two lines with integer SKUs share a ledger pair exactly when they have the same site code and the same SKU number |
| Ledger.KeysOf | app.py:151-153 | the ledger pairs of the normal lines, one per line in order |
| Ledger.Keys | app.py:156-162 | the pairs a query can find are exactly those of some record, of any activity |
| Ledger.NewRecords | app.py:168-173 | the records a run adds are exactly one per pair of the run not already known, each with activity name "自动拣货铺货" |
| Ledger.Step | app.py:156-175 | characterised by Ledger.InsertedIffNew: a known pair adds one to skipped, a new pair is recorded and adds one to inserted |
| Ledger.Distribute | app.py:148-175 | characterised by Ledger.DistributeTotal, Ledger.DistributeSeen and Ledger.DistributeInserted: the loop's pairs and counters after the given lines |
| Ledger.DistributeTotal | app.py:148-175 | inserted + skipped equals the number of normal lines |
| Ledger.DistributeSeen | app.py:148-175 | afterwards the ledger knows its old pairs and every pair of the run |
| Ledger.DistributeInserted | app.py:148-175 | inserted equals the number of distinct pairs of the run that were not in the ledger before |
| Ledger.InsertedIffNew | app.py:151-175 | a line is inserted exactly when its pair is neither in the ledger nor on an earlier line of the run, and otherwise skipped, so a pair repeated within one run is inserted once and skipped afterwards |
| Ledger.SecondRunInsertsNothing | app.py:151-175 | running the same normal orders again inserts nothing and skips every line |
| Ledger.KeysInsert | app.py:169-173 | inserting a record adds its pair to the queryable pairs |
| Ledger.NewRecordsKeepKeysUnique | app.py:156-173 | a run leaves a ledger that had at most one record per pair with at most one record per pair |
| Ledger.ActivityLedger.Exists | app.py:156-164 | characterised by Ledger.ActivityLedger.ExistsIffKnown: the duplicate query on the pair alone |
| Ledger.ActivityLedger.ExistsIffKnown | app.py:156-164 | the duplicate query finds a pair exactly when some record has it |
| Ledger.ActivityLedger.Insert | app.py:169-173 | the ledger gains the one record and keeps all others |
| Ledger.ActivityLedger.RecordDistribution | app.py:148-175 | the counters and the new ledger state are those of the fold `Distribute`; the records become the old records plus `NewRecords`, so no existing record is changed or removed, and a ledger with one record per pair keeps that property |
| Pipeline.Check | app.py:99-138 | a run stops with `NoSites` exactly when the site table is empty; otherwise it stops with the column error of Canon.Canonicalise, which Canon.ChecksInReadOrder pins to the first failing read, or with the drop failure exactly when a line fails both checks; otherwise it yields the two reports shown at app.py:200-209 and the normal orders |
| Pipeline.OwnWarehouseColumnReportsAbnormalSite | app.py:105-138 | every line of a channel whose order file already has a "仓库" column is in the abnormal-site report and is not normal |
| Pipeline.Run | app.py:99-209 | a run that stops leaves the ledger as it was; a successful one records exactly the new pairs with the counters of `Distribute` and offers picking lists that hold every normal line exactly once; the ledger keeps at most one record per pair |

## Left out

- The Streamlit page is not modelled: uploads, buttons, messages, `st.stop` and the on-screen tables. `Pipeline.Reports` stands for the tables.
- Excel reading and the `df_to_excel` export are file-format I/O. Frames are given as values, and a picking list is its lines.
- The Supabase calls become an in-memory set of records in `ActivityLedger`. Network failure, latency and other sessions writing concurrently are not modelled.
- The site table is loaded remotely and the site helpers in `utils/` are thin remote queries, so they are not part of this model. The site table is an input frame. An empty one stops the run (`Failure.NoSites`).
- Floating-point cells are not modelled. A float-typed code column (pandas renders 100 as "100.0") is not modelled either, because `Cell` has only text, integers and missing values.
- Merges that pandas rejects on incompatible key dtypes are not modelled. `Cell` equality stands for merge-key equality.
- Columns that are carried through but never read (product name, the merges' right-key columns "新编码" and "旧编码", and the suffixed `_x`/`_y` copies of shadowed columns) are not part of `Line`. The model does keep their effect on the columns that are read (`Canon.Shadow`).
- Canon.Canonicalise does not model pandas rejecting a merge whose suffixed names would clash with existing columns (an order file with both "仓库" and "仓库_x", say).
- Canon.Canonicalise names one missing column, chosen in the order the run reads columns. pandas may list several columns missing from one selection in its message.
- Canon.Rename requires that no two columns share a name after relabelling. pandas would allow duplicate labels, but the run's column reads would then behave differently.
- Quantities are carried as read and never validated.
- Ledger.KeyOf gives a missing SKU the text "nan", as `str()` does. The model does not compare that text with real codes.
- Grouping.Group compares warehouses with `Cell` equality. Missing never reaches it, because `Warehouses` leaves missing values out.

## Findings

| source | as written | input that shows it | evidently intended | confidence | as-written member | corrected member |
|---|---|---|---|---|---|---|
| app.py:138 | `orders.drop(abnormal_sku.index).drop(abnormal_site.index)`: the second `drop` raises `KeyError` for a label the first one already removed | one web line whose site code matches no site and whose SKU is not in the master | normal orders are the lines in neither report, and a line failing both checks appears in both reports | not executed | Classify.NormalAsWritten, Classify.DoubleFailureRaises | Classify.NormalOrders, Classify.NormalAsWrittenAgrees |
