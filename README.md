# Ads analytics ETL: a verified model

This project models the core of a small batch ETL. The ETL pulls daily campaign performance from two ad platforms and appends it to warehouse tables.

- **Google Ads.** It discovers client accounts beneath a set of manager accounts. For each client it runs two query-language searches: a campaign report, and a conversion report whose category enum is replaced by a name from a lookup table.
- **TikTok Ads.** It lists the advertisers. For each one it fetches a paged campaign report.

Before either report is loaded, the incremental loader removes the rows whose composite key already exists in the destination table within the batch's date window. It appends only the rest.

The model is written in Dafny, one module per source file:

| module | file | models |
|---|---|---|
| `Frames` | `frames.dfy` | Shared values: tabular rows as maps from column name to cell, results and fault kinds, decimal rendering and parsing of ids, and the positive-impressions filter. |
| `Schemas` | `schemas.dfy` | `src/utils/schemas.py`: the three table descriptors. |
| `Loader` | `loader.dfy` | `src/utils/bq_helper.py`: `check_existing_bigquery` and `load_data_to_bigquery`. The destination table is a `class Sink` whose `rows` field changes only when the loader appends. |
| `Hierarchy` | `hierarchy.dfy` | `src/utils/google_ads_helper.py`: `get_managers` and `get_clients`. The breadth-first walk keeps its queue and its ordered managers-to-clients dictionary as method state. |
| `TikTokAds` | `tiktok.dfy` | `src/tiktok_ads/tiktok_ads.py`: the response assertion, the advertiser list, the paged report loop, report shaping, and the `get_report` orchestration. |
| `GoogleAds` | `google.dfy` | `src/google_ads/google_ads.py`: the query templates and `create_query`, the category lookup, the row-flattening loops, report cleaning, and the `get_report` orchestration. |

The platform SDKs and the warehouse client are not modelled as code. Their answers become parameters:

- canned search rows or an exception per customer;
- canned JSON pages per advertiser;
- a `Warehouse` value saying whether a read or a write fails.

Every loop in the source that changes variables step by step is a `method` with a `while` loop. Each is proved equal to a recursive specification function, and the properties are proved as lemmas about that function.

One fact shapes the orchestration results. `check_existing_bigquery` unpacks `composite_primary_key` into exactly two names (`src/utils/bq_helper.py:20`). Both `get_report` functions pass keys of three or four columns (`src/tiktok_ads/tiktok_ads.py:183`, `src/google_ads/google_ads.py:299`, `src/google_ads/google_ads.py:317`). So as written, every run that reaches the loader with data fails at that unpacking and writes nothing. The model follows the code:

- `Loader.Sink.Load` returns `KeyArity` for a key whose length is not two.
- `Loader.Sink.LoadByKey` is the n-column generalisation that the callers evidently rely on. Its properties are proved separately.
- `Loader.TwoColumnLoadsAgree` shows that the two agree on two-column keys.

## Model

| member | source | states |
|---|---|---|
| Frames.Concat | src/tiktok_ads/tiktok_ads.py:170-171 | A row is in the concatenation exactly when it is in one of the tables. Both callers reach `pd.concat` only with a non-empty list, so the raising empty call never arises. |
| Frames.ConcatAppend | src/google_ads/google_ads.py:286-287 | Concatenating a table list extended by one table is the old concatenation followed by that table's rows. |
| Frames.IntTextRoundTrip | src/google_ads/google_ads.py:180-182 | An integer id rendered as decimal text (the cast to `str`) parses back to the same integer. |
| Frames.IntTextInjective | src/google_ads/google_ads.py:180-182 | Distinct ids render to distinct texts, so stringified ids still tell rows apart. |
| Frames.DigitsOfNatText | src/google_ads/google_ads.py:180-182 | The digits of a rendered natural number have exactly that value. |
| Frames.NatText | src/google_ads/google_ads.py:180-182 | A rendered natural number is a non-empty digit string without a leading zero. |
| Frames.KeepImpressions | src/tiktok_ads/tiktok_ads.py:129 | The kept rows are exactly the input rows whose impressions cell compares above zero: an integer or float above zero, or `True`. There are no more of them than input rows. |
| Frames.KeepImpressionsMixedKinds | src/tiktok_ads/tiktok_ads.py:129 | A positive float and `True` pass the filter; zero, `False` and NaN do not. |
| Frames.KeepImpressionsIsSubsequence | src/tiktok_ads/tiktok_ads.py:129 | The boolean mask keeps the rows in their order. |
| Frames.KeepImpressionsCount | src/google_ads/google_ads.py:183 | A row with impressions is kept as many times as it occurs; any other row is not kept. |
| Frames.KeepImpressionsAppend | src/tiktok_ads/tiktok_ads.py:129 | Masking two tables one after the other gives the masks of each, one after the other. |
| Frames.NonEmptyTablesMembers | src/google_ads/google_ads.py:269-280 | A table survives the non-empty filter exactly when it is one of the tables and is not empty. |
| Schemas.TypeOf | src/utils/schemas.py:10-50 | The type reported for a column name belongs to a field of that name, and no type is reported when no field has that name. |
| Schemas.LookupSchemaShape | src/utils/schemas.py:5-8 | The lookup table has a required integer `id` and a required string `category_name` with distinct names. |
| Schemas.GoogleSchemaShape | src/utils/schemas.py:10-31 | The Google report table has 18 fields: a required `segments_date` date, then a required `campaign_id` string, and every later field nullable. |
| Schemas.GoogleSchemaDistinct | src/utils/schemas.py:10-31 | No two fields of the Google report table share a name. |
| Schemas.TikTokSchemaShape | src/utils/schemas.py:33-50 | The TikTok report table has 16 fields: a required `stat_time_day` date, then a required `campaign_id` string, and every later field nullable. |
| Schemas.TikTokSchemaDistinct | src/utils/schemas.py:33-50 | No two fields of the TikTok report table share a name. |
| Schemas.GoogleIdsAreText | src/utils/schemas.py:12-13 | The Google table stores `campaign_id` and `customer_id` as strings. |
| Schemas.TikTokIdsAreText | src/utils/schemas.py:35-36 | The TikTok table stores `campaign_id` and `advertiser_id` as strings. |
| Loader.Span | src/utils/bq_helper.py:25 | The batch's date window is absent exactly when no row holds a date. Otherwise every dated row lies within it, and both its ends are dates some row holds. |
| Loader.DateWindow | src/utils/bq_helper.py:25 | The window exists exactly when every row's date cell holds a date or nothing, and at least one row holds a date. A row lacking the column holds NaN there, as the frame fills it. The missing-column error arises exactly when the batch has rows and none of them has the column. Every dated row lies inside the window. |
| Loader.ExistingKeys | src/utils/bq_helper.py:22-31 | The keys read back are exactly the keys of the table rows whose date lies within the batch's window. |
| Loader.AntiJoin | src/utils/bq_helper.py:33-39 | A batch row is kept exactly when its key is not among the existing keys, and never more rows than the batch. |
| Loader.AbsentColumn | src/utils/bq_helper.py:33-35 | A key column is reported missing only when the batch has rows and none of them has it. None is reported only when every key column is held by some row, or the batch is empty. A row lacking a column the frame has holds NaN there. |
| Loader.Sink.constructor | src/utils/bq_helper.py:43-56 | A table starts with the given rows. |
| Loader.Sink.Load | src/utils/bq_helper.py:17-56 | The load's outcome and new table agree with the load specification. A key not of two columns fails with nothing written. A failed or empty reconciliation leaves the table as it was. An append adds exactly the reconciled rows, at least one, behind the old rows. |
| Loader.Sink.LoadByKey | src/utils/bq_helper.py:17-56 | The same as `Load`, for a key of any length. |
| Loader.Sink.Store | src/utils/bq_helper.py:46-55 | An empty batch writes nothing and reports nothing new. Otherwise the rows are appended, unless the write fails. |
| Loader.AntiJoinIsSubsequence | src/utils/bq_helper.py:33-39 | The rows kept by the left-merge filter keep the batch's order. |
| Loader.AntiJoinCount | src/utils/bq_helper.py:33-39 | Each unmatched row is kept as many times as it occurs in the batch, and each matched row never; duplicates within the batch are not removed. |
| Loader.AntiJoinEmpty | src/utils/bq_helper.py:33-39 | Nothing is kept exactly when every batch row's key already exists. |
| Loader.ExistingKeysAppend | src/utils/bq_helper.py:22-31 | The keys read from two tables appended together are the keys of each. |
| Loader.ExistingKeysOfWindow | src/utils/bq_helper.py:25 | Only table rows within the window contribute keys. |
| Loader.OnlyWindowConsulted | src/utils/bq_helper.py:22-39 | Two tables that agree on the rows inside the batch's window give the same reconciliation, whatever lies outside it. |
| Loader.NewRowsAreUnmatched | src/utils/bq_helper.py:33-39 | A row survives reconciliation exactly when it is a batch row that no table row inside the window matches on the key. |
| Loader.ReconcileAgainIsEmpty | src/utils/bq_helper.py:17-40 | After appending the reconciled rows, reconciling the same fully dated batch again finds nothing new. |
| Loader.ReloadByKeyWritesNothing | src/utils/bq_helper.py:43-56 | After a successful load, loading the same fully dated batch again writes nothing. |
| Loader.ReloadWritesNothing | src/utils/bq_helper.py:43-56 | The same as `ReloadByKeyWritesNothing`, for the two-column loader as written. |
| Loader.TwoColumnLoadsAgree | src/utils/bq_helper.py:20 | For a two-column key the n-column loader behaves exactly as the loader as written. |
| Loader.ScenarioUndatedRow | src/utils/bq_helper.py:25 | A row lacking the date column holds NaN there, so the window is the other rows' dates and no error is raised. |
| Loader.ScenarioNews | src/utils/bq_helper.py:33-39 | With one campaign already present on the day, a two-campaign batch reconciles to the other campaign. |
| Loader.ScenarioOneRowAppended | src/tiktok_ads/tiktok_ads.py:183 | In that scenario the three-column TikTok key makes the loader as written fail with nothing written. The n-column loader appends exactly the new row. |
| Hierarchy.ParseCustomerPath | src/utils/google_ads_helper.py:27-31 | The path parser either matches nothing or yields exactly one non-empty `customer_id` group. |
| Hierarchy.ParseCustomerPathInverse | src/utils/google_ads_helper.py:27-31 | The id parsed from `customers/<id>` is that id. |
| Hierarchy.ManagersOfShape | src/utils/google_ads_helper.py:21-32 | Listing the managers succeeds exactly when every resource name parses, and then yields their ids in order. |
| Hierarchy.ManagersOfPaths | src/utils/google_ads_helper.py:21-32 | Paths built from ids list back to those ids. |
| Hierarchy.ManagersFailFirst | src/utils/google_ads_helper.py:27-31 | The first resource name that does not parse decides the failure; later names are not looked at. |
| Hierarchy.GetManagers | src/utils/google_ads_helper.py:21-32 | The loop returns the managers list specification. |
| Hierarchy.Get | src/utils/google_ads_helper.py:77-80 | A dictionary lookup finds an entry exactly when the key is present, and returns that key's items. |
| Hierarchy.Put | src/utils/google_ads_helper.py:77-80 | After an update the key maps to the new items. An existing key leaves the length unchanged. A new key is appended last (insertion-ordered dictionary). |
| Hierarchy.PutInPlace | src/utils/google_ads_helper.py:77-80 | Updating an existing key replaces its first entry where it stands; every other entry keeps its place. |
| Hierarchy.PutOther | src/utils/google_ads_helper.py:77-80 | An update leaves every other key's items unchanged. |
| Hierarchy.Convert | src/utils/google_ads_helper.py:92-97 | The reshape succeeds exactly when every item is a client row, and then turns each into its id. Otherwise it fails with `NotAClientRow`. |
| Hierarchy.ProcessRowEffect | src/utils/google_ads_helper.py:68-90 | A level-0 row changes nothing. Any other row is appended to the current manager's entry. Its id is enqueued exactly when it is a level-1 manager whose id was not yet a key. |
| Hierarchy.ProcessRowsOtherKey | src/utils/google_ads_helper.py:68-90 | Processing a search's rows changes no entry but the current manager's. |
| Hierarchy.ProcessRowsAppendsToQueue | src/utils/google_ads_helper.py:82-90 | The queue is first-in first-out: processing rows only appends behind what is queued. |
| Hierarchy.ProcessSeedRows | src/utils/google_ads_helper.py:53-90 | For a seed, the rows give one entry holding every non-level-0 row in order, and a queue of the level-1 managers' ids. |
| Hierarchy.FirstVisit | src/utils/google_ads_helper.py:57-90 | The first visit of a seed that has a response records its non-level-0 rows, converted, under the seed and queues its level-1 managers. With no such rows, the seed's entry is missing. |
| Hierarchy.LaterVisit | src/utils/google_ads_helper.py:57-97 | A visit to a queued sub-manager fails: the search fails if there is no response, and otherwise the reshape meets a non-client item. |
| Hierarchy.SeedWalkOutcome | src/utils/google_ads_helper.py:50-97 | With enough fuel the walk for one seed ends with that seed's direct children converted to ids. A failed search, a seed without children, or a level-1 manager among them makes it fail. |
| Hierarchy.LastMapShape | src/utils/google_ads_helper.py:50-54 | Walking all seeds succeeds exactly when each seed's walk does, and then the result is the last seed's dictionary (the dictionary is reset per seed). |
| Hierarchy.LastMapFailureIsFinal | src/utils/google_ads_helper.py:50-97 | The first failing seed ends the run; later seeds are not looked at. |
| Hierarchy.SeedWalksDirect | src/utils/google_ads_helper.py:50-97 | Each seed's walk is that seed's direct-children description, for every seed. |
| Hierarchy.ClientsOfLastSeed | src/utils/google_ads_helper.py:35-110 | `get_clients` succeeds exactly when every seed's direct children are all clients. Its table is then the last seed's children as (manager id, client id) pairs, in row order. |
| Hierarchy.ChildPairsDecode | src/utils/google_ads_helper.py:99-110 | Each output pair carries the seed as manager. Its client id is `"None"` exactly for a manager row. Otherwise the id text parses back to the row's id. |
| Hierarchy.VisitHead | src/utils/google_ads_helper.py:57-97 | One pass of the queue loop agrees with the visit specification. |
| Hierarchy.WalkSeed | src/utils/google_ads_helper.py:53-97 | The queue loop for one seed agrees with the walk specification. |
| Hierarchy.WalkSeeds | src/utils/google_ads_helper.py:50-97 | The seed loop agrees with the last-dictionary specification. |
| Hierarchy.GetClients | src/utils/google_ads_helper.py:35-110 | The whole function agrees with the client-table specification. |
| Hierarchy.FlatHierarchy | src/utils/google_ads_helper.py:35-110 | A seed with two plain clients yields exactly those two pairs. |
| Hierarchy.NestedHierarchyCrashes | src/utils/google_ads_helper.py:82-97 | A seed with a level-1 sub-manager makes the run fail. |
| TikTokAds.AssertResponse | src/tiktok_ads/tiktok_ads.py:29-33 | It accepts exactly a dictionary whose `data` is a dictionary, returning it unchanged. Otherwise it fails with `AssertionFailed`. |
| TikTokAds.FrameOf | src/tiktok_ads/tiktok_ads.py:41-43 | A list of records yields one row per record. |
| TikTokAds.GetAdvertisers | src/tiktok_ads/tiktok_ads.py:36-48 | An API exception yields no advertisers. A rejected response fails the assertion. An accepted one yields the rows of `data.list`, or fails when there is no `list`. |
| TikTokAds.Reads | src/tiktok_ads/tiktok_ads.py:100-112 | Each page response is read independently, one step per page. |
| TikTokAds.RequestsNumbered | src/tiktok_ads/tiktok_ads.py:72-99 | The loop sends at least one request. Its requests ask for consecutive page numbers from the first, each with page size 1000. |
| TikTokAds.CollectedFromFirstPage | src/tiktok_ads/tiktok_ads.py:72-107 | A loop that collects report i's rows from page i+1, in order. It continues exactly while `total_page` exceeds the page just read, and stops at the first page where it does not. |
| TikTokAds.StopDiscards | src/tiktok_ads/tiktok_ads.py:101-112 | A stopping page abandons the loop, discarding the pages collected before it. |
| TikTokAds.PageStops | src/tiktok_ads/tiktok_ads.py:100-112 | A page stops the loop exactly when it raised an API exception, or its accepted response reports a `total_number` that compares below one: an integer, a float or a boolean. |
| TikTokAds.TotalPageCompare | src/tiktok_ads/tiktok_ads.py:105 | For an integer page number, `page >= total_page` holds exactly when the page is at least the count rounded up, for an integer, float or boolean count. |
| TikTokAds.FloatPageCounts | src/tiktok_ads/tiktok_ads.py:101-107 | A `total_number` of 0.0 or `False` stops the loop, and a `total_page` of 2.5 reads as three pages. |
| TikTokAds.RequestsOfCollected | src/tiktok_ads/tiktok_ads.py:84-107 | A collected run sends one request per list collected, so its last request is for the page that ended the loop. |
| TikTokAds.RequestsOfStopped | src/tiktok_ads/tiktok_ads.py:84-112 | A run abandoned at page k has sent exactly the requests up to page k. |
| TikTokAds.CollectedRequests | src/tiktok_ads/tiktok_ads.py:72-107 | The requests of a collected run are for pages 1 to k with page size 1000, where k is the first page whose `total_page` is at most k. |
| TikTokAds.StoppedRequests | src/tiktok_ads/tiktok_ads.py:72-112 | The requests of a run stopped at page k are for pages 1 to k with page size 1000. |
| TikTokAds.StoppedReportIsEmpty | src/tiktok_ads/tiktok_ads.py:101-123 | When the loop reaches a stopping page, the advertiser's report is empty. |
| TikTokAds.Flat | src/tiktok_ads/tiktok_ads.py:113-120 | Flattening the collected lists gives as many items as they hold in total. |
| TikTokAds.FlatAppend | src/tiktok_ads/tiktok_ads.py:103-104 | A list collected later comes after every earlier list's items: the items keep page order. |
| TikTokAds.Expand | src/tiktok_ads/tiktok_ads.py:113-120 | A successfully expanded page has one row per item and is not empty. |
| TikTokAds.MissingEverywhere | src/tiktok_ads/tiktok_ads.py:121 | A selected column is reported missing only when no row has it. None is reported only when each column occurs in some row. |
| TikTokAds.Select | src/tiktok_ads/tiktok_ads.py:121 | Selection fails exactly when some column occurs in no row. Otherwise each row becomes that row restricted to the columns, with absent cells empty. |
| TikTokAds.Project | src/tiktok_ads/tiktok_ads.py:121 | A projected row has exactly the selected columns. |
| TikTokAds.CoerceRow | src/tiktok_ads/tiktok_ads.py:124-128 | Coercion keeps a row's columns. |
| TikTokAds.Numeric | src/tiktok_ads/tiktok_ads.py:126-128 | A coerced metric is a number, a boolean or empty (`errors="coerce"`). |
| TikTokAds.Rename | src/tiktok_ads/tiktok_ads.py:130 | Renaming moves the `stat_time_day` cell to `date` and keeps every other cell. |
| TikTokAds.PreparedRows | src/tiktok_ads/tiktok_ads.py:113-128 | Concatenating, selecting and coercing gives one row per collected item, in order. Row k is item k's `dimensions` and `metrics` side by side, restricted to the kept columns and coerced, with exactly the kept columns. |
| TikTokAds.RenameKeeps | src/tiktok_ads/tiktok_ads.py:129-130 | A filtered row renamed keeps its impressions and has `date` in place of `stat_time_day`. |
| TikTokAds.ShapeRows | src/tiktok_ads/tiktok_ads.py:113-131 | Shaping fails exactly when preparing fails. Otherwise the report is the prepared rows that have impressions, renamed, in order. |
| TikTokAds.ReportedMembers | src/tiktok_ads/tiktok_ads.py:129-130 | A report row is exactly a renamed prepared row with impressions. |
| TikTokAds.ReportItems | src/tiktok_ads/tiktok_ads.py:113-131 | The report holds exactly the fetched items whose prepared row has impressions, each renamed. |
| TikTokAds.ShapeOutput | src/tiktok_ads/tiktok_ads.py:113-131 | The shaped report has no more rows than items collected. Each row has exactly the output columns and positive impressions. |
| TikTokAds.ColumnsMatchSchema | src/tiktok_ads/tiktok_ads.py:55-71 | The selected columns are the TikTok table's fields in order. The coerced ones are exactly its numeric fields. |
| TikTokAds.GetReportCampaign | src/tiktok_ads/tiktok_ads.py:51-131 | The method's report agrees with the report specification. The requests it issues are the ones the loop specification issues. |
| TikTokAds.Reports | src/tiktok_ads/tiktok_ads.py:159-168 | Advertiser i gets the report of its own pages. An advertiser beyond the canned responses gets `OutOfResponses`. |
| TikTokAds.GatherOk | src/tiktok_ads/tiktok_ads.py:159-168 | Gathering succeeds exactly when every report does, and keeps at most one frame per report. |
| TikTokAds.GatherKeepsNonEmpty | src/tiktok_ads/tiktok_ads.py:163-168 | Every gathered frame is a non-empty successful report, and every non-empty successful report is gathered. |
| TikTokAds.GatherFailsFirst | src/tiktok_ads/tiktok_ads.py:159-168 | A failed gathering reports the error of one of the reports. |
| TikTokAds.GatherFailureIsFinal | src/tiktok_ads/tiktok_ads.py:159-168 | The first failing report ends the loop; later reports do not matter. |
| TikTokAds.NoAdvertisersNoFetch | src/tiktok_ads/tiktok_ads.py:154-157 | With no advertisers, no report is fetched and nothing is written. |
| TikTokAds.ReportCampaignErrors | src/tiktok_ads/tiktok_ads.py:51-131 | Fetching a report never fails with the loader's key-arity error. |
| TikTokAds.RunNeverWrites | src/tiktok_ads/tiktok_ads.py:134-186 | No run changes the table. A run fails at the key unpacking exactly when there are advertisers with ids, every report succeeded, and some report was non-empty. |
| TikTokAds.CollectReports | src/tiktok_ads/tiktok_ads.py:159-168 | The advertiser loop agrees with the gathering specification. |
| TikTokAds.GetReport | src/tiktok_ads/tiktok_ads.py:134-186 | The method's outcome and the sink's new rows agree with the run specification. |
| GoogleAds.FormatPlain | src/google_ads/google_ads.py:87-91 | Formatting text without braces returns it unchanged. |
| GoogleAds.FillTemplate | src/google_ads/google_ads.py:87-91 | Formatting substitutes the start and end dates for their two placeholders and changes nothing else. |
| GoogleAds.QueriesFormat | src/google_ads/google_ads.py:40-91 | Both query templates format to their text with the dates placed in the `BETWEEN` clause. |
| GoogleAds.FirstMatch | src/google_ads/google_ads.py:94-95 | The index found matches the category and no earlier row does. None is found only when no row matches. |
| GoogleAds.CategoryNameLookup | src/google_ads/google_ads.py:94-95 | The lookup fails on a missing `id` or `category_name` column. It fails with `NoMatch` exactly when no row matches. Otherwise it returns the first matching row's name. |
| GoogleAds.CampaignRecord | src/google_ads/google_ads.py:100-123 | A flattened campaign row has exactly the campaign record columns. |
| GoogleAds.ConversionRecord | src/google_ads/google_ads.py:130-152 | A flattened conversion row has exactly the conversion record columns. |
| GoogleAds.RecordsAt | src/google_ads/google_ads.py:100-123 | The flattening loop gives one record per search row, in order. |
| GoogleAds.Select | src/google_ads/google_ads.py:127 | Column selection succeeds exactly when every selected column exists, and then projects each record. |
| GoogleAds.Project | src/google_ads/google_ads.py:127 | A projected record has the selected columns that exist, with their values. |
| GoogleAds.CategorizeAt | src/google_ads/google_ads.py:153-155 | Replacing categories succeeds exactly when every record's category has a name, and then replaces each record's category by its name. |
| GoogleAds.CollectRecords | src/google_ads/google_ads.py:100-123 | The loop agrees with the records specification. |
| GoogleAds.GetQueryDf | src/google_ads/google_ads.py:98-127 | The method agrees with the campaign-frame specification. |
| GoogleAds.GetQueryConversionDf | src/google_ads/google_ads.py:130-156 | The method agrees with the conversion-frame specification. |
| GoogleAds.StringifyIds | src/google_ads/google_ads.py:180-182 | Stringifying keeps every column and adds both id columns. |
| GoogleAds.Clean | src/google_ads/google_ads.py:178-182 | Cleaning a frame stringifies the ids of each row. |
| GoogleAds.CampaignReportRows | src/google_ads/google_ads.py:159-184 | A failed search or no rows yields an empty report. Otherwise the report holds exactly the cleaned rows with positive impressions. |
| GoogleAds.CleanedImpressions | src/google_ads/google_ads.py:183 | A cleaned row passes the filter exactly when its impressions are positive. |
| GoogleAds.CleanedIds | src/google_ads/google_ads.py:180-182 | A cleaned row's ids are the decimal texts of its customer and campaign ids, and they parse back. |
| GoogleAds.ConversionReportRows | src/google_ads/google_ads.py:187-213 | On search rows, the conversion report succeeds exactly when every row's category has a name. Its rows are then, in order, each record with the category name in place of the enum, projected and stringified. |
| GoogleAds.CategorizedRecords | src/google_ads/google_ads.py:130-155 | The category replacement is exactly the per-row lookup of each row's category enum. |
| GoogleAds.GetReportCampaign | src/google_ads/google_ads.py:159-184 | The method agrees with the campaign report specification. |
| GoogleAds.GetReportCampaignConversion | src/google_ads/google_ads.py:187-213 | The method agrees with the conversion report specification. |
| GoogleAds.ClientResults | src/google_ads/google_ads.py:259-280 | There is one pair of results per client. |
| GoogleAds.GatherBothKeeps | src/google_ads/google_ads.py:259-280 | A successful client loop keeps exactly the non-empty reports of each kind, in client order. |
| GoogleAds.GatherBothMembers | src/google_ads/google_ads.py:259-280 | After a successful loop, a report is kept exactly when it is some client's non-empty report of that kind. |
| GoogleAds.GatherBothShape | src/google_ads/google_ads.py:259-280 | The client loop succeeds exactly when both of every client's reports do. It then keeps at most one report of each kind per client, and only non-empty ones. |
| GoogleAds.GatherBothFailureIsFinal | src/google_ads/google_ads.py:259-280 | The first failing client ends the loop. |
| GoogleAds.NoLookupOrClientsNoFetch | src/google_ads/google_ads.py:231-257 | With no lookup table or no clients, no report is fetched and neither table changes. |
| GoogleAds.DryRunNeverLoads | src/google_ads/google_ads.py:282-284 | A dry run returns `DryRun` exactly when every fetch succeeded, and never writes. |
| GoogleAds.RunNeverWrites | src/google_ads/google_ads.py:216-320 | No run changes either table. A completed run fails at the three-column key when there are campaign reports, at the four-column key when there are only conversion reports, and otherwise loads nothing. |
| GoogleAds.CollectClientReports | src/google_ads/google_ads.py:259-280 | The client loop agrees with the gathering specification. |
| GoogleAds.GetReport | src/google_ads/google_ads.py:216-320 | The method's outcome and both sinks' new rows agree with the run specification. |

## Left out

- `export_to_parquet` and the `export` switch of both `get_report` functions: file output and the wall clock only.
- The platform SDKs, credentials, environment variables and logging are not modelled. Searches, API pages and the warehouse are parameters (canned responses and a `Warehouse` failure switch). An advertiser or client beyond the canned responses gets `OutOfResponses`.
- The default dates, computed from the clock: start and end dates are parameters, as the text `arrow` formats at the call sites. Inside `create_query` the second `.format` applies to that brace-free text, which leaves it unchanged (`GoogleAds.FormatPlain`).
- Floating-point values are the real numbers they denote. NaN and the infinities, which Python's JSON decoder also accepts, are not modelled, nor is rounding; no arithmetic is done on floats.
- Dates are whole day numbers. Parsing of date strings and the `dbdate` dtype are not modelled: a cell either already holds a date or is not one.
- `pd.to_numeric(..., errors="coerce")` is modelled on integer texts and numbers only. Other numeric text becomes empty.
- `str.format` handles the two date placeholders, plus text without braces. Any other brace syntax is a `BadFormat` error.
- A TikTok list item that is not a JSON object is a `BadType` error rather than pandas' conversion behaviour.
- A TikTok report item that lacks `dimensions` or `metrics`, or holds a non-object there, is a `BadType` error. pandas raises `KeyError` when every item lacks the column, and fills NaN when only some do.
- GoogleAds.ReportRun: one `readFails` switch covers both warehouse reads, the category lookup and the existing-keys query. So a run whose lookup read succeeds while the key read fails is not expressible. Every load fails on the key arity before that read, so no outcome is lost.
- The `table_schema` and `dtypes` passed to the warehouse client are not modelled.
- `google_dtypes`, `google_conversion_dtypes` and `google_conversion_schema` are imported by `src/google_ads/google_ads.py` but not defined in `src/utils/schemas.py`. The selected column lists are therefore parameters.
- GoogleAds.GetReport: requires the campaign and conversion sinks to be distinct objects, which the source's two table ids are meant to be.
- Hierarchy.WalkSeed: the queue walk is bounded by `WalkFuel` (2). `Hierarchy.SeedWalkOutcome` proves that enough for every input, because the second visit always ends the walk.
- Concurrency and asserts disabled with `python -O` are not modelled.
- A failed warehouse read is not caught, following the code (`Err(ReadFailed)`).
- Duplicate rows within one batch are kept (`Loader.AntiJoinCount`), as the merge keeps them.
- Loader.ReconcileAgainIsEmpty: stated only for a batch whose every row holds a date. A row whose date is empty is never read back by the window query, so it would be appended again.
- Loader.ReloadWritesNothing: stated for a fully dated batch, for the same reason.
- Loader.ReloadByKeyWritesNothing: stated for a fully dated batch, for the same reason.
- TikTokAds.GetReportCampaign: each page's response is given up front, one per page number. What the API would answer for a page number past the canned list is not modelled; the loop stops there with `OutOfResponses`.
