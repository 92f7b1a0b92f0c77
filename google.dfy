/** The Google Ads campaign report job (`google_ads.py`): read the
    conversion-category lookup, walk the account hierarchy for the client
    accounts, fetch each client's campaign and conversion reports, clean
    them, and hand each union to the incremental loader. */
module GoogleAds {

  import opened Frames
  import opened Loader
  import opened Hierarchy

  // ---------------------------------------------------------------------
  // create_query: `str.format` with the two keyword fields

  const StartField: string := "{start_date}"
  const EndField: string := "{end_date}"

  predicate StartsWith(t: string, p: string)
  {
    |t| >= |p| && t[..|p|] == p
  }

  predicate NoBraces(t: string)
  {
    '{' !in t && '}' !in t
  }

  /** `template.format(start_date=startDate, end_date=endDate)`: the two
      fields are replaced by the given texts, a doubled brace stands for one
      brace, and any other replacement field or a lone brace raises. */
  function CreateQuery(template: string, startDate: string, endDate: string): Result<string>
    decreases |template|
  {
    if template == [] then Ok([])
    else if template[0] == '{' then
      if |template| >= 2 && template[1] == '{' then
        var rest :- CreateQuery(template[2..], startDate, endDate);
        Ok("{" + rest)
      else if StartsWith(template, StartField) then
        var rest :- CreateQuery(template[|StartField|..], startDate, endDate);
        Ok(startDate + rest)
      else if StartsWith(template, EndField) then
        var rest :- CreateQuery(template[|EndField|..], startDate, endDate);
        Ok(endDate + rest)
      else Err(BadFormat)
    else if template[0] == '}' then
      if |template| >= 2 && template[1] == '}' then
        var rest :- CreateQuery(template[2..], startDate, endDate);
        Ok("}" + rest)
      else Err(BadFormat)
    else
      var rest :- CreateQuery(template[1..], startDate, endDate);
      Ok([template[0]] + rest)
  }

  /** Text without braces passes through unchanged. */
  lemma {:induction false} PlainPrefix(a: string, t: string, startDate: string, endDate: string)
    requires NoBraces(a)
    ensures CreateQuery(a + t, startDate, endDate).Ok? == CreateQuery(t, startDate, endDate).Ok?
    ensures CreateQuery(t, startDate, endDate).Ok? ==>
      CreateQuery(a + t, startDate, endDate).value == a + CreateQuery(t, startDate, endDate).value
  {
    if a == [] {
      assert a + t == t;
    } else {
      assert (a + t)[0] == a[0];
      assert (a + t)[1..] == a[1..] + t;
      PlainPrefix(a[1..], t, startDate, endDate);
      if CreateQuery(t, startDate, endDate).Ok? {
        assert [a[0]] + (a[1..] + CreateQuery(t, startDate, endDate).value) == a + CreateQuery(t, startDate, endDate).value;
      }
    }
  }

  lemma FormatPlain(a: string, startDate: string, endDate: string)
    requires NoBraces(a)
    ensures CreateQuery(a, startDate, endDate) == Ok(a)
  {
    PlainPrefix(a, [], startDate, endDate);
    assert a + [] == a;
  }

  lemma StartFieldPrefix(t: string, startDate: string, endDate: string)
    ensures CreateQuery(StartField + t, startDate, endDate) ==
      (match CreateQuery(t, startDate, endDate) case Ok(rest) => Ok(startDate + rest) case Err(e) => Err(e))
  {
    var u := StartField + t;
    assert u[0] == '{' && u[1] == 's';
    assert u[..|StartField|] == StartField;
    assert u[|StartField|..] == t;
  }

  lemma EndFieldPrefix(t: string, startDate: string, endDate: string)
    ensures CreateQuery(EndField + t, startDate, endDate) ==
      (match CreateQuery(t, startDate, endDate) case Ok(rest) => Ok(endDate + rest) case Err(e) => Err(e))
  {
    var u := EndField + t;
    assert u[0] == '{' && u[1] == 'e';
    assert |u| >= |StartField| ==> u[..|StartField|][1] == 'e';
    assert u[..|EndField|] == EndField;
    assert u[|EndField|..] == t;
  }

  /** A template made of brace-free text around one start field and one end
      field formats to that text with the two dates put in, whatever
      characters the dates contain. */
  lemma FillTemplate(head: string, mid: string, tail: string, startDate: string, endDate: string)
    requires NoBraces(head) && NoBraces(mid) && NoBraces(tail)
    ensures CreateQuery(head + StartField + mid + EndField + tail, startDate, endDate)
      == Ok(head + startDate + mid + endDate + tail)
  {
    var t1, r1 := EndField + tail, endDate + tail;
    FormatPlain(tail, startDate, endDate);
    EndFieldPrefix(tail, startDate, endDate);
    assert CreateQuery(t1, startDate, endDate) == Ok(r1);
    var t2, r2 := mid + t1, mid + r1;
    PlainPrefix(mid, t1, startDate, endDate);
    assert CreateQuery(t2, startDate, endDate) == Ok(r2);
    var t3, r3 := StartField + t2, startDate + r2;
    StartFieldPrefix(t2, startDate, endDate);
    assert CreateQuery(t3, startDate, endDate) == Ok(r3);
    var t4, r4 := head + t3, head + r3;
    PlainPrefix(head, t3, startDate, endDate);
    assert CreateQuery(t4, startDate, endDate) == Ok(r4);
    Regroup(head, StartField, mid, EndField, tail);
    Regroup(head, startDate, mid, endDate, tail);
  }

  lemma Regroup(a: string, b: string, c: string, d: string, e: string)
    ensures a + (b + (c + (d + e))) == a + b + c + d + e
  {
  }

  /** Text that `str.format` passes through unchanged. */
  type PlainText = t: string | NoBraces(t)

  /** The fields a query selects, one per line, comma-separated. */
  function SelectList(fields: seq<PlainText>): PlainText
  {
    if fields == [] then ""
    else if |fields| == 1 then Indent + fields[0] + "\n"
    else Indent + fields[0] + ",\n" + SelectList(fields[1..])
  }

  // The selected fields, by resource.
  const Segments: PlainText := "segments."
  const Customer: PlainText := "customer."
  const Campaign: PlainText := "campaign."
  const Metrics: PlainText := "metrics."

  const SegmentsDate: PlainText := Segments + "date"
  const SegmentsConversionAction: PlainText := Segments + "conversion_action"
  const SegmentsConversionActionName: PlainText := SegmentsConversionAction + "_name"
  const SegmentsConversionActionCategory: PlainText := SegmentsConversionAction + "_category"
  const CustomerId: PlainText := Customer + "id"
  const CustomerCurrencyCode: PlainText := Customer + "currency_code"
  const CampaignId: PlainText := Campaign + "id"
  const CampaignName: PlainText := Campaign + "name"
  const MetricsImpressions: PlainText := Metrics + "impressions"
  const MetricsClicks: PlainText := Metrics + "clicks"
  const MetricsVideoViews: PlainText := Metrics + "video_views"
  const MetricsEngagements: PlainText := Metrics + "engagements"
  const MetricsConversions: PlainText := Metrics + "conversions"
  const MetricsAllConversions: PlainText := Metrics + "all_conversions"
  const MetricsViewThroughConversions: PlainText := Metrics + "view_through_conversions"
  const MetricsCostMicros: PlainText := Metrics + "cost_micros"
  const MetricsCtr: PlainText := Metrics + "ctr"
  const MetricsAverageCpc: PlainText := Metrics + "average_cpc"
  const TopImpressionPercentage: PlainText := "top_impression_percentage"
  const MetricsTopImpressionPercentage: PlainText := Metrics + TopImpressionPercentage
  const MetricsAbsoluteTopImpressionPercentage: PlainText := Metrics + "absolute_" + TopImpressionPercentage
  const MetricsCostPerConversion: PlainText := Metrics + "cost_per_conversion"

  const CampaignFields: seq<PlainText> := [
    SegmentsDate, CustomerId, CampaignId, CampaignName,
    MetricsImpressions, MetricsClicks, MetricsVideoViews,
    MetricsEngagements, MetricsConversions, MetricsAllConversions,
    MetricsViewThroughConversions, MetricsCostMicros, MetricsCtr,
    MetricsAverageCpc, MetricsAbsoluteTopImpressionPercentage,
    MetricsTopImpressionPercentage, MetricsCostPerConversion,
    CustomerCurrencyCode
  ]

  const ConversionFields: seq<PlainText> := [
    SegmentsDate, CustomerId, CampaignId, CampaignName,
    SegmentsConversionAction, SegmentsConversionActionName,
    SegmentsConversionActionCategory, MetricsConversions,
    MetricsAllConversions, MetricsViewThroughConversions
  ]

  const SelectClause: PlainText := "\n    SELECT\n"
  const Indent: PlainText := "        "
  const FromLines: PlainText := "    FROM\n" + Indent + "campaign\n"
  const WhereLine: PlainText := "    WHERE\n"
  const BetweenLine: PlainText := Indent + SegmentsDate + " BETWEEN '"
  const FromClause: PlainText := FromLines + WhereLine + BetweenLine
  const DateSeparator: PlainText := "' AND '"

  /** `QUERY`: its text before, between and after the two date fields. */
  const QueryHead: PlainText := SelectClause + SelectList(CampaignFields) + FromClause
  const QueryTail: PlainText := "'\n" + Indent + "AND " + MetricsImpressions + " > 0\n"
  const Query: string := QueryHead + StartField + DateSeparator + EndField + QueryTail

  /** `QUERY_CONVERSION`, likewise. */
  const ConversionHead: PlainText := SelectClause + SelectList(ConversionFields) + FromClause
  const ConversionTail: PlainText := "'\n"
  const QueryConversion: string := ConversionHead + StartField + DateSeparator + EndField + ConversionTail

  /** Both report queries format to their text with the day's bounds put
      between the quotes of the BETWEEN clause, and nothing else changed. */
  lemma QueriesFormat(startDate: string, endDate: string)
    ensures CreateQuery(Query, startDate, endDate) == Ok(QueryHead + startDate + DateSeparator + endDate + QueryTail)
    ensures CreateQuery(QueryConversion, startDate, endDate)
      == Ok(ConversionHead + startDate + DateSeparator + endDate + ConversionTail)
  {
    FillTemplate(QueryHead, DateSeparator, QueryTail, startDate, endDate);
    FillTemplate(ConversionHead, DateSeparator, ConversionTail, startDate, endDate);
  }

  // ---------------------------------------------------------------------
  // get_category_name

  /** A table read from the warehouse: its columns, and its rows. */
  datatype Table = Table(columns: set<string>, rows: seq<Row>)

  /** `lookup_df["id"] == category_enum` for one row (NaN equals nothing). */
  predicate Matches(r: Row, category: Value)
  {
    category != VNone && Cell(r, "id") == category
  }

  function FirstMatch(rows: seq<Row>, category: Value): (i: Option<nat>)
    ensures i.Some? ==> (i.value < |rows| && Matches(rows[i.value], category)
      && forall j :: 0 <= j < i.value ==> !Matches(rows[j], category))
    ensures i.None? ==> forall j :: 0 <= j < |rows| ==> !Matches(rows[j], category)
  {
    if rows == [] then None
    else if Matches(rows[0], category) then Some(0)
    else match FirstMatch(rows[1..], category)
      case None => None
      case Some(i) => Some(i + 1)
  }

  /** `lookup_df[lookup_df["id"] == category_enum]["category_name"].iloc[0]`:
      the name on the first row with that id. */
  function GetCategoryName(lookup: Table, category: Value): Result<Value>
  {
    if "id" !in lookup.columns then Err(MissingColumn("id"))
    else if "category_name" !in lookup.columns then Err(MissingColumn("category_name"))
    else match FirstMatch(lookup.rows, category)
      case None => Err(NoMatch)
      case Some(i) => Ok(Cell(lookup.rows[i], "category_name"))
  }

  /** The lookup raises for a missing column (the id column checked first),
      raises when no row has the id (`.iloc[0]` of an empty selection), and
      otherwise gives the name on the first row with the id. */
  lemma CategoryNameLookup(lookup: Table, category: Value)
    ensures var r := GetCategoryName(lookup, category);
      && ("id" !in lookup.columns ==> r == Err(MissingColumn("id")))
      && ("id" in lookup.columns && "category_name" !in lookup.columns ==> r == Err(MissingColumn("category_name")))
      && (r.Ok? ==> exists i :: (0 <= i < |lookup.rows| && Matches(lookup.rows[i], category)
            && r.value == Cell(lookup.rows[i], "category_name")
            && forall j :: 0 <= j < i ==> !Matches(lookup.rows[j], category)))
      && ("id" in lookup.columns && "category_name" in lookup.columns ==>
            (r == Err(NoMatch) <==> forall i :: 0 <= i < |lookup.rows| ==> !Matches(lookup.rows[i], category)))
      && (r.Ok? || r.error.NoMatch? || r.error.MissingColumn?)
  {
  }

  // ---------------------------------------------------------------------
  // Flattening the search response

  /** One row of a `GoogleAdsService.search` response, with the fields the
      two queries select. Floating-point metrics are cells, carried through unchanged. */
  datatype SearchRow = SearchRow(
    date: int,
    customerId: int,
    campaignId: int,
    campaignName: string,
    currencyCode: string,
    impressions: int,
    clicks: int,
    videoViews: int,
    engagements: int,
    conversions: Value,
    allConversions: Value,
    viewThroughConversions: Value,
    costMicros: int,
    ctr: Value,
    averageCpc: Value,
    absoluteTopImpressionPercentage: Value,
    topImpressionPercentage: Value,
    costPerConversion: Value,
    conversionAction: string,
    conversionActionName: string,
    conversionActionCategory: int)

  /** A search call: it raised `GoogleAdsException`, or it gave rows. */
  datatype Search = SearchRaised | SearchRows(rows: seq<SearchRow>)

  /** The record `get_googleads_query_df` builds from one response row. */
  function CampaignRecord(r: SearchRow): (rec: Row)
    ensures rec.Keys == CampaignRecordColumns
  {
    // A map has no order; the cells the reports read are written last.
    map[
      "campaign_name" := VText(r.campaignName),
      "currency_code" := VText(r.currencyCode),
      "clicks" := VInt(r.clicks),
      "video_views" := VInt(r.videoViews),
      "engagements" := VInt(r.engagements),
      "conversions" := r.conversions,
      "all_conversions" := r.allConversions,
      "view_through_conversions" := r.viewThroughConversions,
      "cost_micros" := VInt(r.costMicros),
      "ctr" := r.ctr,
      "average_cpc" := r.averageCpc,
      "absolute_top_impression_percentage" := r.absoluteTopImpressionPercentage,
      "top_impression_percentage" := r.topImpressionPercentage,
      "cost_per_conversion" := r.costPerConversion,
      "impressions" := VInt(r.impressions),
      "campaign_id" := VInt(r.campaignId),
      "customer_id" := VInt(r.customerId),
      "date" := VDate(r.date)
    ]
  }

  const CampaignRecordColumns: set<string> := {
    "date", "customer_id", "campaign_id", "campaign_name", "currency_code",
    "impressions", "clicks", "video_views", "engagements", "conversions",
    "all_conversions", "view_through_conversions", "cost_micros", "ctr",
    "average_cpc", "absolute_top_impression_percentage",
    "top_impression_percentage", "cost_per_conversion"
  }

  /** The record `get_googleads_query_conversion_df` builds from one row. */
  function ConversionRecord(r: SearchRow): (rec: Row)
    ensures rec.Keys == ConversionRecordColumns
  {
    // A map has no order; the cells the reports read are written last.
    map[
      "campaign_name" := VText(r.campaignName),
      "conversion_action" := VText(r.conversionAction),
      "conversion_action_name" := VText(r.conversionActionName),
      "conversions" := r.conversions,
      "all_conversions" := r.allConversions,
      "view_through_conversions" := r.viewThroughConversions,
      "conversion_action_category" := VInt(r.conversionActionCategory),
      "campaign_id" := VInt(r.campaignId),
      "customer_id" := VInt(r.customerId),
      "date" := VDate(r.date)
    ]
  }

  const ConversionRecordColumns: set<string> := {
    "date", "customer_id", "campaign_id", "campaign_name", "conversion_action",
    "conversion_action_name", "conversion_action_category", "conversions",
    "all_conversions", "view_through_conversions"
  }

  /** The records of a response, one per row, in response order. */
  function Records(rows: seq<SearchRow>, record: SearchRow -> Row): seq<Row>
  {
    if rows == [] then [] else Records(rows[..|rows| - 1], record) + [record(rows[|rows| - 1])]
  }

  lemma {:induction false} RecordsAt(rows: seq<SearchRow>, record: SearchRow -> Row)
    ensures |Records(rows, record)| == |rows|
    ensures forall i :: 0 <= i < |rows| ==> Records(rows, record)[i] == record(rows[i])
  {
    if rows != [] {
      RecordsAt(rows[..|rows| - 1], record);
    }
  }

  /** The column names the two frames are cut down to (`google_dtypes` and
      `google_conversion_dtypes`, which `schemas.py` does not define: they
      are inputs here). */
  datatype Registry = Registry(campaignColumns: seq<string>, conversionColumns: seq<string>)

  /** The first of `cols` outside `have` (the selection's KeyError). */
  function FirstOutside(cols: seq<string>, have: set<string>): (c: Option<string>)
    ensures c.Some? ==> c.value in cols && c.value !in have
    ensures c.None? ==> forall x :: x in cols ==> x in have
  {
    if cols == [] then None
    else if cols[0] !in have then Some(cols[0])
    else FirstOutside(cols[1..], have)
  }

  /** `frame[cols]` for one record. */
  function Project(r: Row, cols: seq<string>): (p: Row)
    ensures p.Keys == (set c | c in cols) * r.Keys
    ensures forall c :: c in p ==> p[c] == r[c]
  {
    map c | c in cols && c in r :: r[c]
  }

  /** `frame[cols]` for records that all have the columns `have`. */
  function Select(records: seq<Row>, have: set<string>, cols: seq<string>): (r: Result<seq<Row>>)
    ensures r.Ok? ==> |r.value| == |records| && forall i :: 0 <= i < |records| ==> r.value[i] == Project(records[i], cols)
    ensures r.Ok? <==> FirstOutside(cols, have).None?
  {
    match FirstOutside(cols, have)
    case Some(c) => Err(MissingColumn(c))
    case None => Ok(seq(|records|, i requires 0 <= i < |records| => Project(records[i], cols)))
  }

  /** `get_googleads_query_df` on the rows of a response. */
  function CampaignFrame(rows: seq<SearchRow>, cols: seq<string>): Result<seq<Row>>
  {
    if rows == [] then Ok([])
    else Select(Records(rows, CampaignRecord), CampaignRecordColumns, cols)
  }

  /** `.apply(lambda x: get_category_name(lookup, x))` on the category
      column: each record's category replaced by its name, in order; the
      first failing lookup raises. */
  function Categorize(records: seq<Row>, lookup: Table): Result<seq<Row>>
  {
    if records == [] then Ok([])
    else
      var front :- Categorize(records[..|records| - 1], lookup);
      var last := records[|records| - 1];
      var name :- GetCategoryName(lookup, Cell(last, "conversion_action_category"));
      Ok(front + [last["conversion_action_category" := name]])
  }

  lemma {:induction false} CategorizeAt(records: seq<Row>, lookup: Table)
    ensures Categorize(records, lookup).Ok? <==>
      forall i :: 0 <= i < |records| ==> GetCategoryName(lookup, Cell(records[i], "conversion_action_category")).Ok?
    ensures Categorize(records, lookup).Ok? ==>
      |Categorize(records, lookup).value| == |records|
      && forall i :: 0 <= i < |records| ==> (Categorize(records, lookup).value[i] ==
        records[i]["conversion_action_category" := GetCategoryName(lookup, Cell(records[i], "conversion_action_category")).value])
  {
    if records != [] {
      var front := records[..|records| - 1];
      CategorizeAt(front, lookup);
      CategorizeStep(records, lookup);
      assert forall i :: 0 <= i < |front| ==> front[i] == records[i];
    }
  }

  /** `Categorize` on a non-empty frame: the front, then the last record. */
  lemma CategorizeStep(records: seq<Row>, lookup: Table)
    requires records != []
    ensures var front := Categorize(records[..|records| - 1], lookup);
      var last := records[|records| - 1];
      var name := GetCategoryName(lookup, Cell(last, "conversion_action_category"));
      && (Categorize(records, lookup).Ok? <==> front.Ok? && name.Ok?)
      && (Categorize(records, lookup).Ok? ==>
            Categorize(records, lookup).value == front.value + [last["conversion_action_category" := name.value]])
  {
  }

  /** `get_googleads_query_conversion_df` on the rows of a response. */
  function ConversionFrame(rows: seq<SearchRow>, lookup: Table, cols: seq<string>): Result<seq<Row>>
  {
    if rows == [] then Ok([])
    else
      var named :- Categorize(Records(rows, ConversionRecord), lookup);
      Select(named, ConversionRecordColumns, cols)
  }

  /** The loop both flattening functions share: one record per response
      row, appended in response order. */
  method CollectRecords(rows: seq<SearchRow>, record: SearchRow -> Row) returns (records: seq<Row>)
    ensures records == Records(rows, record)
  {
    records := [];
    for i := 0 to |rows|
      invariant records == Records(rows[..i], record)
    {
      assert rows[..i + 1][..i] == rows[..i];
      records := records + [record(rows[i])];
    }
    assert rows[..|rows|] == rows;
  }

  method GetQueryDf(rows: seq<SearchRow>, cols: seq<string>) returns (frame: Result<seq<Row>>)
    ensures frame == CampaignFrame(rows, cols)
  {
    var records := CollectRecords(rows, CampaignRecord);
    if records == [] {
      return Ok([]);
    }
    frame := Select(records, CampaignRecordColumns, cols);
  }

  method GetQueryConversionDf(rows: seq<SearchRow>, lookup: Table, cols: seq<string>) returns (frame: Result<seq<Row>>)
    ensures frame == ConversionFrame(rows, lookup, cols)
  {
    var records := CollectRecords(rows, ConversionRecord);
    if records == [] {
      return Ok([]);
    }
    var named := Categorize(records, lookup);
    if named.Err? {
      return Err(named.error);
    }
    frame := Select(named.value, ConversionRecordColumns, cols);
  }

  // ---------------------------------------------------------------------
  // get_report_campaign and get_report_campaign_conversion

  /** `astype(str)` of an id column: the ids of a record are integers. */
  function Str(v: Value): Value
  {
    match v
    case VInt(i) => VText(IntText(i))
    case _ => v
  }

  function StringifyIds(r: Row): (s: Row)
    ensures s.Keys == r.Keys + {"customer_id", "campaign_id"}
  {
    r["customer_id" := Str(Cell(r, "customer_id"))]["campaign_id" := Str(Cell(r, "campaign_id"))]
  }

  /** The column writes both report functions make: the date column is
      converted (dates are already days here) and the two id columns become
      text; each raises when the frame lacks the column. */
  function Clean(frame: seq<Row>, cols: seq<string>): (r: Result<seq<Row>>)
    ensures r.Ok? ==> |r.value| == |frame| && forall i :: 0 <= i < |frame| ==> r.value[i] == StringifyIds(frame[i])
  {
    if "date" !in cols then Err(MissingColumn("date"))
    else if "customer_id" !in cols then Err(MissingColumn("customer_id"))
    else if "campaign_id" !in cols then Err(MissingColumn("campaign_id"))
    else Ok(seq(|frame|, i requires 0 <= i < |frame| => StringifyIds(frame[i])))
  }

  /** `get_report_campaign`: the formatted query is sent, an API exception
      or an empty frame gives the empty table, otherwise the cleaned rows
      with impressions. */
  function CampaignReport(template: string, startDate: string, endDate: string, resp: Search, cols: seq<string>): Result<seq<Row>>
  {
    var query :- CreateQuery(template, startDate, endDate);
    match resp
    case SearchRaised => Ok([])
    case SearchRows(rows) =>
      var frame :- CampaignFrame(rows, cols);
      if EmptyFrame(frame) then Ok([])
      else
        var cleaned :- Clean(frame, cols);
        if "impressions" !in cols then Err(MissingColumn("impressions"))
        else Ok(KeepImpressions(cleaned))
  }

  /** `get_report_campaign_conversion`: the same, with the category names
      filled in and no impressions filter. */
  function ConversionReport(template: string, startDate: string, endDate: string, resp: Search, lookup: Table, cols: seq<string>): Result<seq<Row>>
  {
    var query :- CreateQuery(template, startDate, endDate);
    match resp
    case SearchRaised => Ok([])
    case SearchRows(rows) =>
      var frame :- ConversionFrame(rows, lookup, cols);
      if EmptyFrame(frame) then Ok([])
      else Clean(frame, cols)
  }

  /** The row a campaign report keeps for one response row. */
  function CleanedCampaign(r: SearchRow, cols: seq<string>): Row
  {
    StringifyIds(Project(CampaignRecord(r), cols))
  }

  /** A columns list the frame functions accept and the cleaning needs. */
  predicate Usable(cols: seq<string>, have: set<string>)
  {
    FirstOutside(cols, have).None? && "date" in cols && "customer_id" in cols && "campaign_id" in cols
  }

  /** A campaign report is empty on an API exception or an empty response;
      otherwise it holds exactly the cleaned rows of the response rows with
      impressions, whose ids read back as the response's ids. */
  lemma CampaignReportRows(template: string, startDate: string, endDate: string, resp: Search, cols: seq<string>)
    requires CreateQuery(template, startDate, endDate).Ok?
    requires Usable(cols, CampaignRecordColumns) && "impressions" in cols
    ensures resp.SearchRaised? || resp.rows == [] ==> CampaignReport(template, startDate, endDate, resp, cols) == Ok([])
    ensures CampaignReport(template, startDate, endDate, resp, cols).Ok?
    ensures resp.SearchRows? ==> forall x ::
      x in CampaignReport(template, startDate, endDate, resp, cols).value <==>
        exists i :: 0 <= i < |resp.rows| && resp.rows[i].impressions > 0 && x == CleanedCampaign(resp.rows[i], cols)
  {
    if resp.SearchRows? && resp.rows != [] {
      var rows := resp.rows;
      var cleaned := CleanedFrame(rows, cols);
      assert CampaignReport(template, startDate, endDate, resp, cols) == Ok(KeepImpressions(cleaned));
      var out := KeepImpressions(cleaned);
      forall x
        ensures x in out <==> exists i :: 0 <= i < |rows| && rows[i].impressions > 0 && x == CleanedCampaign(rows[i], cols)
      {
        if x in out {
          var i :| 0 <= i < |cleaned| && cleaned[i] == x;
          CleanedImpressions(rows[i], cols);
        }
        if exists i :: 0 <= i < |rows| && rows[i].impressions > 0 && x == CleanedCampaign(rows[i], cols) {
          var i :| 0 <= i < |rows| && rows[i].impressions > 0 && x == CleanedCampaign(rows[i], cols);
          CleanedImpressions(rows[i], cols);
          assert cleaned[i] in cleaned;
        }
      }
    }
  }

  /** The cleaned frame of a non-empty response: one cleaned record per
      response row, in order. */
  lemma CleanedFrame(rows: seq<SearchRow>, cols: seq<string>) returns (cleaned: seq<Row>)
    requires Usable(cols, CampaignRecordColumns) && rows != []
    ensures CampaignFrame(rows, cols).Ok? && !EmptyFrame(CampaignFrame(rows, cols).value)
    ensures Clean(CampaignFrame(rows, cols).value, cols) == Ok(cleaned)
    ensures |cleaned| == |rows| && forall i :: 0 <= i < |rows| ==> cleaned[i] == CleanedCampaign(rows[i], cols)
  {
    var records := Records(rows, CampaignRecord);
    RecordsAt(rows, CampaignRecord);
    assert "date" in CampaignRecordColumns;
    assert "date" in records[0];
    cleaned := SelectedFrame(records, CampaignRecordColumns, cols);
  }

  /** Selecting usable columns from records that hold their date gives a
      frame that is not empty and cleans without error. */
  lemma SelectedFrame(records: seq<Row>, have: set<string>, cols: seq<string>) returns (cleaned: seq<Row>)
    requires Usable(cols, have) && records != [] && "date" in records[0]
    ensures Select(records, have, cols).Ok? && !EmptyFrame(Select(records, have, cols).value)
    ensures Clean(Select(records, have, cols).value, cols) == Ok(cleaned)
    ensures |cleaned| == |records| && forall i :: 0 <= i < |records| ==> cleaned[i] == StringifyIds(Project(records[i], cols))
  {
    var frame := Select(records, have, cols).value;
    assert "date" in frame[0];
    cleaned := Clean(frame, cols).value;
  }

  lemma CleanedImpressions(r: SearchRow, cols: seq<string>)
    requires "impressions" in cols
    ensures HasImpressions(CleanedCampaign(r, cols)) <==> r.impressions > 0
  {
    ImpressionsCell(r);
  }

  /** The cells of a campaign record the reports read. */
  lemma ImpressionsCell(r: SearchRow)
    ensures CampaignRecord(r)["impressions"] == VInt(r.impressions)
  {
  }

  lemma IdCells(r: SearchRow)
    ensures CampaignRecord(r)["customer_id"] == VInt(r.customerId)
    ensures CampaignRecord(r)["campaign_id"] == VInt(r.campaignId)
  {
  }

  /** The ids of a kept row are the decimal texts of the response's ids. */
  lemma CleanedIds(r: SearchRow, cols: seq<string>)
    requires "customer_id" in cols && "campaign_id" in cols
    ensures CleanedCampaign(r, cols)["customer_id"] == VText(IntText(r.customerId))
    ensures CleanedCampaign(r, cols)["campaign_id"] == VText(IntText(r.campaignId))
    ensures ParseInt(IntText(r.customerId)) == Some(r.customerId)
    ensures ParseInt(IntText(r.campaignId)) == Some(r.campaignId)
  {
    IdCells(r);
    IntTextRoundTrip(r.customerId);
    IntTextRoundTrip(r.campaignId);
  }

  /** A conversion report keeps every response row, in order (no
      impressions filter), each with its category replaced by the lookup's
      name for it; the first category the lookup lacks fails the report. */
  lemma ConversionReportRows(template: string, startDate: string, endDate: string, rows: seq<SearchRow>, lookup: Table, cols: seq<string>)
    requires CreateQuery(template, startDate, endDate).Ok?
    requires Usable(cols, ConversionRecordColumns) && rows != []
    ensures ConversionReport(template, startDate, endDate, SearchRows(rows), lookup, cols).Ok? <==>
      forall i :: 0 <= i < |rows| ==> GetCategoryName(lookup, VInt(rows[i].conversionActionCategory)).Ok?
    ensures ConversionReport(template, startDate, endDate, SearchRows(rows), lookup, cols).Ok? ==>
      var out := ConversionReport(template, startDate, endDate, SearchRows(rows), lookup, cols).value;
      |out| == |rows| && forall i :: 0 <= i < |rows| ==>
        out[i] == StringifyIds(Project(ConversionRecord(rows[i])["conversion_action_category" :=
          GetCategoryName(lookup, VInt(rows[i].conversionActionCategory)).value], cols))
  {
    var named := CategorizedRecords(rows, lookup);
    if named.Ok? {
      assert "date" in named.value[0];
      var cleaned := SelectedFrame(named.value, ConversionRecordColumns, cols);
      assert ConversionReport(template, startDate, endDate, SearchRows(rows), lookup, cols) == Ok(cleaned);
    }
  }

  /** The categorized records of a response: one per row, each with its
      category replaced by the lookup's name, or the first failing lookup. */
  lemma CategorizedRecords(rows: seq<SearchRow>, lookup: Table) returns (named: Result<seq<Row>>)
    ensures named == Categorize(Records(rows, ConversionRecord), lookup)
    ensures named.Ok? <==> forall i :: 0 <= i < |rows| ==> GetCategoryName(lookup, VInt(rows[i].conversionActionCategory)).Ok?
    ensures named.Ok? ==> |named.value| == |rows| && forall i :: 0 <= i < |rows| ==>
      named.value[i] == ConversionRecord(rows[i])["conversion_action_category" :=
        GetCategoryName(lookup, VInt(rows[i].conversionActionCategory)).value]
  {
    var records := Records(rows, ConversionRecord);
    RecordsAt(rows, ConversionRecord);
    CategorizeAt(records, lookup);
    forall i | 0 <= i < |rows|
      ensures Cell(records[i], "conversion_action_category") == VInt(rows[i].conversionActionCategory)
    {
      CategoryCell(rows[i]);
    }
    named := Categorize(records, lookup);
  }

  lemma CategoryCell(r: SearchRow)
    ensures Cell(ConversionRecord(r), "conversion_action_category") == VInt(r.conversionActionCategory)
  {
  }

  method GetReportCampaign(template: string, startDate: string, endDate: string, resp: Search, cols: seq<string>) returns (report: Result<seq<Row>>)
    ensures report == CampaignReport(template, startDate, endDate, resp, cols)
  {
    var query := CreateQuery(template, startDate, endDate);
    if query.Err? {
      return Err(query.error);
    }
    if resp.SearchRaised? {
      return Ok([]);
    }
    var frame := GetQueryDf(resp.rows, cols);
    if frame.Err? {
      return Err(frame.error);
    }
    if EmptyFrame(frame.value) {
      return Ok([]);
    }
    var cleaned := Clean(frame.value, cols);
    if cleaned.Err? {
      return Err(cleaned.error);
    }
    if "impressions" !in cols {
      return Err(MissingColumn("impressions"));
    }
    report := Ok(KeepImpressions(cleaned.value));
  }

  method GetReportCampaignConversion(template: string, startDate: string, endDate: string, resp: Search, lookup: Table, cols: seq<string>)
    returns (report: Result<seq<Row>>)
    ensures report == ConversionReport(template, startDate, endDate, resp, lookup, cols)
  {
    var query := CreateQuery(template, startDate, endDate);
    if query.Err? {
      return Err(query.error);
    }
    if resp.SearchRaised? {
      return Ok([]);
    }
    var frame := GetQueryConversionDf(resp.rows, lookup, cols);
    if frame.Err? {
      return Err(frame.error);
    }
    if EmptyFrame(frame.value) {
      return Ok([]);
    }
    report := Clean(frame.value, cols);
  }

  // ---------------------------------------------------------------------
  // get_report: the daily orchestration

  const CampaignKey: seq<string> := ["date", "customer_id", "campaign_id"]
  const ConversionKey: seq<string> := ["date", "customer_id", "campaign_id", "conversion_action"]

  /** The two search responses for one client account. */
  datatype ClientFeed = ClientFeed(campaign: Search, conversion: Search)

  /** Everything a run reads besides the two destination tables: the
      category lookup as read (None when the read gives nothing), the
      accessible customer resource names, the hierarchy search responses,
      the report responses by client position, the column registry, the
      day's bounds as text, and the dry-run switch. */
  datatype Job = Job(
    lookup: Option<Table>,
    accessible: seq<string>,
    hierarchy: map<CustomerKey, seq<ClientRow>>,
    feeds: seq<ClientFeed>,
    registry: Registry,
    startDate: string,
    endDate: string,
    dryRun: bool)

  /** Both reports of one client. */
  datatype ClientReports = ClientReports(campaign: Result<seq<Row>>, conversion: Result<seq<Row>>)

  function ClientResults(job: Job, lookup: Table, n: nat): (rs: seq<ClientReports>)
    ensures |rs| == n
  {
    seq(n, i requires 0 <= i < n =>
      if i < |job.feeds| then
        ClientReports(
          CampaignReport(Query, job.startDate, job.endDate, job.feeds[i].campaign, job.registry.campaignColumns),
          ConversionReport(QueryConversion, job.startDate, job.endDate, job.feeds[i].conversion, lookup, job.registry.conversionColumns))
      else ClientReports(Err(OutOfResponses), Err(OutOfResponses)))
  }

  datatype Collected = Collected(campaigns: seq<seq<Row>>, conversions: seq<seq<Row>>)

  function AppendNonEmpty(acc: seq<seq<Row>>, report: seq<Row>): seq<seq<Row>>
  {
    if EmptyFrame(report) then acc else acc + [report]
  }

  /** `campaign_reports` and `conversion_reports`: per client, the campaign
      report then the conversion report, each kept when non-empty; the
      first failure ends the run. */
  function GatherBoth(results: seq<ClientReports>): Result<Collected>
  {
    if results == [] then Ok(Collected([], []))
    else
      var acc :- GatherBoth(results[..|results| - 1]);
      var last := results[|results| - 1];
      var campaign :- last.campaign;
      var conversion :- last.conversion;
      Ok(Collected(AppendNonEmpty(acc.campaigns, campaign), AppendNonEmpty(acc.conversions, conversion)))
  }

  /** Gathering succeeds exactly when both reports of every client do, and
      keeps only non-empty reports. */
  lemma {:induction false} GatherBothShape(results: seq<ClientReports>)
    ensures GatherBoth(results).Ok? <==> forall i :: 0 <= i < |results| ==> results[i].campaign.Ok? && results[i].conversion.Ok?
    ensures GatherBoth(results).Ok? ==>
      && |GatherBoth(results).value.campaigns| <= |results|
      && |GatherBoth(results).value.conversions| <= |results|
      && (forall k :: 0 <= k < |GatherBoth(results).value.campaigns| ==> !EmptyFrame(GatherBoth(results).value.campaigns[k]))
      && (forall k :: 0 <= k < |GatherBoth(results).value.conversions| ==> !EmptyFrame(GatherBoth(results).value.conversions[k]))
  {
    if results != [] {
      var front := results[..|results| - 1];
      GatherBothShape(front);
      assert forall i :: 0 <= i < |front| ==> front[i] == results[i];
    }
  }

  /** The campaign reports of every client, in client order (a failed one
      as the empty table). */
  function CampaignReports(results: seq<ClientReports>): (rs: seq<seq<Row>>)
    ensures |rs| == |results|
  {
    seq(|results|, i requires 0 <= i < |results| => if results[i].campaign.Ok? then results[i].campaign.value else [])
  }

  function ConversionReports(results: seq<ClientReports>): (rs: seq<seq<Row>>)
    ensures |rs| == |results|
  {
    seq(|results|, i requires 0 <= i < |results| => if results[i].conversion.Ok? then results[i].conversion.value else [])
  }

  /** A successful gathering keeps exactly the non-empty reports of each
      kind, in client order. */
  lemma {:induction false} GatherBothKeeps(results: seq<ClientReports>)
    requires GatherBoth(results).Ok?
    ensures GatherBoth(results).value.campaigns == NonEmptyTables(CampaignReports(results))
    ensures GatherBoth(results).value.conversions == NonEmptyTables(ConversionReports(results))
  {
    if results != [] {
      var front := results[..|results| - 1];
      var last := results[|results| - 1];
      GatherBothKeeps(front);
      assert CampaignReports(results) == CampaignReports(front) + [last.campaign.value];
      assert ConversionReports(results) == ConversionReports(front) + [last.conversion.value];
      NonEmptyTablesAppend(CampaignReports(front), last.campaign.value);
      NonEmptyTablesAppend(ConversionReports(front), last.conversion.value);
      assert NonEmptyTables([last.campaign.value]) == if EmptyFrame(last.campaign.value) then [] else [last.campaign.value];
      assert NonEmptyTables([last.conversion.value]) == if EmptyFrame(last.conversion.value) then [] else [last.conversion.value];
    }
  }

  /** Every non-empty report of a successful gathering is kept, and
      nothing else is. */
  lemma GatherBothMembers(results: seq<ClientReports>, t: seq<Row>)
    requires GatherBoth(results).Ok?
    ensures t in GatherBoth(results).value.campaigns <==> (exists i :: 0 <= i < |results| && results[i].campaign == Ok(t)) && !EmptyFrame(t)
    ensures t in GatherBoth(results).value.conversions <==> (exists i :: 0 <= i < |results| && results[i].conversion == Ok(t)) && !EmptyFrame(t)
  {
    GatherBothShape(results);
    GatherBothKeeps(results);
    NonEmptyTablesMembers(CampaignReports(results), t);
    NonEmptyTablesMembers(ConversionReports(results), t);
    if t in CampaignReports(results) {
      var i :| 0 <= i < |results| && CampaignReports(results)[i] == t;
      assert results[i].campaign == Ok(t);
    }
    if t in ConversionReports(results) {
      var i :| 0 <= i < |results| && ConversionReports(results)[i] == t;
      assert results[i].conversion == Ok(t);
    }
    forall i | 0 <= i < |results| && results[i].campaign == Ok(t)
      ensures t in CampaignReports(results)
    {
      assert CampaignReports(results)[i] == t;
    }
    forall i | 0 <= i < |results| && results[i].conversion == Ok(t)
      ensures t in ConversionReports(results)
    {
      assert ConversionReports(results)[i] == t;
    }
  }

  lemma GatherBothStep(results: seq<ClientReports>, i: nat)
    requires i < |results| && GatherBoth(results[..i]).Ok?
    ensures GatherBoth(results[..i + 1]) ==
      (var acc := GatherBoth(results[..i]).value;
       match results[i].campaign
       case Err(e) => Err(e)
       case Ok(campaign) =>
         match results[i].conversion
         case Err(e) => Err(e)
         case Ok(conversion) => Ok(Collected(AppendNonEmpty(acc.campaigns, campaign), AppendNonEmpty(acc.conversions, conversion))))
  {
    assert results[..i + 1][..i] == results[..i];
  }

  lemma {:induction false} GatherBothFailureIsFinal(results: seq<ClientReports>, i: nat)
    requires i <= |results|
    requires GatherBoth(results[..i]).Err?
    ensures GatherBoth(results) == GatherBoth(results[..i])
    decreases |results| - i
  {
    if i == |results| {
      assert results[..i] == results;
    } else {
      var front := results[..|results| - 1];
      assert front[..i] == results[..i];
      GatherBothFailureIsFinal(front, i);
    }
  }

  /** The client list: the accessible managers, then the hierarchy walk. */
  function Clients(job: Job): Result<seq<Pair>>
  {
    var seeds :- ManagersOf(job.accessible);
    ClientsOf(seeds, job.hierarchy)
  }

  datatype Stage =
    | NoLookup
    | NoClients
    | DryRun
    | Loaded(campaign: Option<LoadStatus>, conversion: Option<LoadStatus>)

  /** What a run returns and what the two destination tables hold after it. */
  datatype Run = Run(outcome: Result<Stage>, campaignRows: seq<Row>, conversionRows: seq<Row>)

  /** The second handoff, after the first one (if any) returned. */
  function ConversionHandoff(campaignRows: seq<Row>, conversionRows: seq<Row>, first: Option<LoadStatus>, c: Collected, wh: Warehouse): Run
  {
    if c.conversions == [] then Run(Ok(Loaded(first, None)), campaignRows, conversionRows)
    else
      var effect := LoadEffect(conversionRows, Concat(c.conversions), ConversionKey, wh);
      match effect.outcome
      case Err(e) => Run(Err(e), campaignRows, effect.rows)
      case Ok(s) => Run(Ok(Loaded(first, Some(s))), campaignRows, effect.rows)
  }

  /** Lines 286-320: each report list is loaded when non-empty; a load that
      raises ends the run. */
  function Handoffs(campaignRows: seq<Row>, conversionRows: seq<Row>, c: Collected, wh: Warehouse): Run
  {
    if c.campaigns == [] then ConversionHandoff(campaignRows, conversionRows, None, c, wh)
    else
      var effect := LoadEffect(campaignRows, Concat(c.campaigns), CampaignKey, wh);
      match effect.outcome
      case Err(e) => Run(Err(e), effect.rows, conversionRows)
      case Ok(s) => ConversionHandoff(effect.rows, conversionRows, Some(s), c, wh)
  }

  /** `get_report`. */
  function ReportRun(campaignRows: seq<Row>, conversionRows: seq<Row>, job: Job, wh: Warehouse): Run
  {
    if wh.readFails then Run(Err(ReadFailed), campaignRows, conversionRows)
    else if job.lookup.None? then Run(Ok(NoLookup), campaignRows, conversionRows)
    else match Clients(job)
      case Err(e) => Run(Err(e), campaignRows, conversionRows)
      case Ok(pairs) =>
        if pairs == [] then Run(Ok(NoClients), campaignRows, conversionRows)
        else match GatherBoth(ClientResults(job, job.lookup.value, |pairs|))
          case Err(e) => Run(Err(e), campaignRows, conversionRows)
          case Ok(c) =>
            if job.dryRun then Run(Ok(DryRun), campaignRows, conversionRows)
            else Handoffs(campaignRows, conversionRows, c, wh)
  }

  /** Every client was fetched: the run got past the client loop. */
  predicate FetchedAll(job: Job, wh: Warehouse)
  {
    && !wh.readFails
    && job.lookup.Some?
    && Clients(job).Ok?
    && Clients(job).value != []
    && GatherBoth(ClientResults(job, job.lookup.value, |Clients(job).value|)).Ok?
  }

  /** With no lookup table, or no client, nothing is fetched: the run does
      not depend on the report responses, and no table changes. */
  lemma NoLookupOrClientsNoFetch(campaignRows: seq<Row>, conversionRows: seq<Row>, job: Job, feeds: seq<ClientFeed>, wh: Warehouse)
    requires !wh.readFails
    requires job.lookup.None? || (Clients(job).Ok? && Clients(job).value == [])
    ensures ReportRun(campaignRows, conversionRows, job, wh) == ReportRun(campaignRows, conversionRows, job.(feeds := feeds), wh)
    ensures ReportRun(campaignRows, conversionRows, job, wh).campaignRows == campaignRows
    ensures ReportRun(campaignRows, conversionRows, job, wh).conversionRows == conversionRows
    ensures job.lookup.None? ==> ReportRun(campaignRows, conversionRows, job, wh).outcome == Ok(NoLookup)
  {
    assert Clients(job.(feeds := feeds)) == Clients(job);
  }

  /** A dry run fetches every client's reports and then stops: it returns
      `DryRun` exactly when every fetch succeeded, and it never loads. */
  lemma DryRunNeverLoads(campaignRows: seq<Row>, conversionRows: seq<Row>, job: Job, wh: Warehouse)
    requires job.dryRun
    ensures var run := ReportRun(campaignRows, conversionRows, job, wh);
      && (run.outcome == Ok(DryRun) <==> FetchedAll(job, wh))
      && run.campaignRows == campaignRows && run.conversionRows == conversionRows
      && !(run.outcome.Ok? && run.outcome.value.Loaded?)
  {
  }

  /** Past the client loop the loader is called with the three-column key
      when there are campaign reports, else with the four-column key when
      there are conversion reports; the loader as written rejects both, so
      no run changes either table. */
  lemma RunNeverWrites(campaignRows: seq<Row>, conversionRows: seq<Row>, job: Job, wh: Warehouse)
    ensures ReportRun(campaignRows, conversionRows, job, wh).campaignRows == campaignRows
    ensures ReportRun(campaignRows, conversionRows, job, wh).conversionRows == conversionRows
    ensures FetchedAll(job, wh) && !job.dryRun ==>
      var c := GatherBoth(ClientResults(job, job.lookup.value, |Clients(job).value|)).value;
      ReportRun(campaignRows, conversionRows, job, wh).outcome ==
        if c.campaigns != [] then Err(KeyArity(3))
        else if c.conversions != [] then Err(KeyArity(4))
        else Ok(Loaded(None, None))
  {
  }

  /** The client loop of `get_report`. */
  method CollectClientReports(job: Job, lookup: Table, n: nat) returns (gathered: Result<Collected>)
    ensures gathered == GatherBoth(ClientResults(job, lookup, n))
  {
    ghost var results := ClientResults(job, lookup, n);
    var campaigns: seq<seq<Row>> := [];
    var conversions: seq<seq<Row>> := [];
    for i := 0 to n
      invariant GatherBoth(results[..i]) == Ok(Collected(campaigns, conversions))
    {
      GatherBothStep(results, i);
      var campaign: Result<seq<Row>>;
      var conversion: Result<seq<Row>>;
      if i < |job.feeds| {
        campaign := GetReportCampaign(Query, job.startDate, job.endDate, job.feeds[i].campaign, job.registry.campaignColumns);
      } else {
        campaign := Err(OutOfResponses);
      }
      if campaign.Err? {
        GatherBothFailureIsFinal(results, i + 1);
        return Err(campaign.error);
      }
      if !EmptyFrame(campaign.value) {
        campaigns := campaigns + [campaign.value];
      }
      if i < |job.feeds| {
        conversion := GetReportCampaignConversion(QueryConversion, job.startDate, job.endDate, job.feeds[i].conversion, lookup, job.registry.conversionColumns);
      } else {
        conversion := Err(OutOfResponses);
      }
      if conversion.Err? {
        GatherBothFailureIsFinal(results, i + 1);
        return Err(conversion.error);
      }
      if !EmptyFrame(conversion.value) {
        conversions := conversions + [conversion.value];
      }
    }
    assert results[..n] == results;
    gathered := Ok(Collected(campaigns, conversions));
  }

  /** `get_report` against two distinct destination tables. */
  method GetReport(campaignSink: Sink, conversionSink: Sink, job: Job, wh: Warehouse) returns (outcome: Result<Stage>)
    requires campaignSink != conversionSink
    modifies campaignSink, conversionSink
    ensures Run(outcome, campaignSink.rows, conversionSink.rows)
      == ReportRun(old(campaignSink.rows), old(conversionSink.rows), job, wh)
  {
    if wh.readFails {
      return Err(ReadFailed);
    }
    if job.lookup.None? {
      return Ok(NoLookup);
    }
    var seeds := GetManagers(job.accessible);
    if seeds.Err? {
      return Err(seeds.error);
    }
    var clients := GetClients(seeds.value, job.hierarchy);
    if clients.Err? {
      return Err(clients.error);
    }
    if clients.value == [] {
      return Ok(NoClients);
    }
    var gathered := CollectClientReports(job, job.lookup.value, |clients.value|);
    if gathered.Err? {
      return Err(gathered.error);
    }
    if job.dryRun {
      return Ok(DryRun);
    }
    var c := gathered.value;
    var first: Option<LoadStatus> := None;
    if c.campaigns != [] {
      var status := campaignSink.Load(Concat(c.campaigns), CampaignKey, wh);
      match status {
        case Err(e) => return Err(e);
        case Ok(s) => first := Some(s);
      }
    }
    if c.conversions != [] {
      var status := conversionSink.Load(Concat(c.conversions), ConversionKey, wh);
      match status {
        case Err(e) => return Err(e);
        case Ok(s) => return Ok(Loaded(first, Some(s)));
      }
    }
    outcome := Ok(Loaded(first, None));
  }
}
