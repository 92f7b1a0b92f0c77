/** The TikTok campaign report job (`tiktok_ads.py`): list the authorised
    advertisers, fetch each one's daily campaign report page by page, flatten
    and clean the rows, and hand the union to the incremental loader. */
module TikTokAds {

  import opened Frames
  import opened Schemas
  import opened Loader

  /** A decoded API response. Calendar days arrive already normalised;
      a floating-point number is the real number it denotes. */
  datatype Json =
    | JNull
    | JBool(b: bool)
    | JInt(i: int)
    | JText(s: string)
    | JDay(day: int)
    | JFloat(x: real)
    | JList(items: seq<Json>)
    | JObject(fields: map<string, Json>)

  /** `assert_tiktok_api_response`: a dictionary whose "data" is a dictionary. */
  predicate IsApiResponse(j: Json)
  {
    j.JObject? && "data" in j.fields && j.fields["data"].JObject?
  }

  function AssertResponse(j: Json): (r: Result<Json>)
    ensures r.Ok? <==> IsApiResponse(j)
    ensures r.Ok? ==> r.value == j
    ensures r.Err? ==> r.error == AssertionFailed
  {
    if IsApiResponse(j) then Ok(j) else Err(AssertionFailed)
  }

  /** The `data` dictionary of an accepted response. */
  function Data(j: Json): map<string, Json>
    requires IsApiResponse(j)
  {
    j.fields["data"].fields
  }

  /** A scalar JSON value as a DataFrame cell; nested values stay opaque. */
  function CellOf(j: Json): Value
  {
    match j
    case JNull => VNone
    case JBool(b) => VBool(b)
    case JInt(i) => VInt(i)
    case JText(s) => VText(s)
    case JDay(d) => VDate(d)
    case JFloat(x) => VFloat(x)
    case _ => VOther
  }

  /** `pd.DataFrame(records)` for a list of dictionaries (None gives the
      empty table). */
  function FrameOf(j: Json): (r: Result<seq<Row>>)
    ensures r.Ok? && j.JList? ==> |r.value| == |j.items|
  {
    match j
    case JNull => Ok([])
    case JList(items) =>
      if forall k :: 0 <= k < |items| ==> items[k].JObject? then
        Ok(seq(|items|, k requires 0 <= k < |items| && items[k].JObject? =>
          map c | c in items[k].fields :: CellOf(items[k].fields[c])))
      else Err(BadType)
    case _ => Err(BadType)
  }

  // ---------------------------------------------------------------------
  // get_advertisers

  datatype AdvertiserResponse = AdvertiserApiException | AdvertiserReply(body: Json)

  /** `get_advertisers`: the response's `data.list` as a table; an API
      error gives the empty table. */
  function GetAdvertisers(resp: AdvertiserResponse): (r: Result<seq<Row>>)
    ensures resp.AdvertiserApiException? ==> r == Ok([])
    ensures resp.AdvertiserReply? && !IsApiResponse(resp.body) ==> r == Err(AssertionFailed)
    ensures resp.AdvertiserReply? && IsApiResponse(resp.body) ==>
      r == if "list" in Data(resp.body) then FrameOf(Data(resp.body)["list"]) else Err(MissingKey("list"))
  {
    match resp
    case AdvertiserApiException => Ok([])
    case AdvertiserReply(body) =>
      var checked :- AssertResponse(body);
      var data := Data(checked);
      if "list" in data then FrameOf(data["list"]) else Err(MissingKey("list"))
  }

  // ---------------------------------------------------------------------
  // get_report_campaign: the page loop

  const PageSize: nat := 1000

  /** The response to one `report_integrated_get` call. */
  datatype PageResponse = PageApiException | PageReply(body: Json)

  /** What one page tells the loop: stop with an empty result (an API error
      or `total_number < 1`), or a list of rows and the page count rounded
      up, against which the integer page number compares as against
      `total_page` itself (`TotalPageCompare`). */
  datatype PageStep = Stop | Rows(list: seq<Json>, totalPage: int)

  /** The `list` of a page (None counts as empty). */
  function ItemsOf(j: Json): Result<seq<Json>>
  {
    match j
    case JNull => Ok([])
    case JList(items) => Ok(items)
    case _ => Err(BadType)
  }

  /** A value Python compares with a number: an integer, a float, or a
      boolean. */
  predicate IsNumber(j: Json)
  {
    j.JInt? || j.JFloat? || j.JBool?
  }

  /** The number such a value compares as (`True` is 1, `False` is 0). */
  function NumberValue(j: Json): real
    requires IsNumber(j)
  {
    match j
    case JInt(i) => i as real
    case JFloat(x) => x
    case JBool(b) => if b then 1.0 else 0.0
  }

  /** The least integer at or above `x`. */
  function Ceiling(x: real): (c: int)
    ensures x <= c as real < x + 1.0
  {
    -((-x).Floor)
  }

  /** `page >= total_page` for an integer page and any numeric page count is
      the comparison against the count rounded up. */
  lemma TotalPageCompare(page: int, j: Json)
    requires IsNumber(j)
    ensures page as real >= NumberValue(j) <==> page >= Ceiling(NumberValue(j))
  {
  }

  /** One page, read in the order the loop body reads it: the assertion,
      `page_info.total_number`, `list`, then `page_info.total_page`. */
  function PageRead(r: PageResponse): Result<PageStep>
  {
    match r
    case PageApiException => Ok(Stop)
    case PageReply(body) =>
      var checked :- AssertResponse(body);
      var data := Data(checked);
      if "page_info" !in data then Err(MissingKey("page_info"))
      else if !data["page_info"].JObject? then Err(BadType)
      else
        var info := data["page_info"].fields;
        if "total_number" !in info then Err(MissingKey("total_number"))
        else if !IsNumber(info["total_number"]) then Err(BadType)
        else if NumberValue(info["total_number"]) < 1.0 then Ok(Stop)
        else if "list" !in data then Err(MissingKey("list"))
        else
          var items :- ItemsOf(data["list"]);
          if "total_page" !in info then Err(MissingKey("total_page"))
          else if !IsNumber(info["total_page"]) then Err(BadType)
          else Ok(Rows(items, Ceiling(NumberValue(info["total_page"]))))
  }

  /** What each canned page reads as, page by page. */
  function Reads(pages: seq<PageResponse>): (steps: seq<Result<PageStep>>)
    ensures |steps| == |pages|
    ensures forall i :: 0 <= i < |pages| ==> steps[i] == PageRead(pages[i])
  {
    seq(|pages|, i requires 0 <= i < |pages| => PageRead(pages[i]))
  }

  /** A page that carries rows. */
  predicate IsRows(step: Result<PageStep>) { step.Ok? && step.value.Rows? }

  datatype Fetched = Abandoned | Collected(lists: seq<seq<Json>>)

  /** The `while True` loop from page `page` on, over what each page reads
      as (pages are 1-based; `steps[page - 1]` answers the request for page
      `page`). Requesting a page beyond the canned responses is a modelling
      failure. */
  function PageLoop(steps: seq<Result<PageStep>>, page: nat, acc: seq<seq<Json>>): Result<Fetched>
    requires page >= 1
    decreases |steps| + 1 - page
  {
    if page > |steps| then Err(OutOfResponses)
    else match steps[page - 1]
      case Err(e) => Err(e)
      case Ok(Stop) => Ok(Abandoned)
      case Ok(Rows(items, totalPage)) =>
        if page >= totalPage then Ok(Collected(acc + [items]))
        else PageLoop(steps, page + 1, acc + [items])
  }

  /** One `report_integrated_get` call: the page number and page size. */
  datatype PageRequest = PageRequest(page: nat, pageSize: nat)

  /** The requests the loop makes from page `page` on: one per iteration,
      ending at the page that stops or breaks the loop. */
  function RequestsFrom(steps: seq<Result<PageStep>>, page: nat): seq<PageRequest>
    requires page >= 1
    decreases |steps| + 1 - page
  {
    var here := [PageRequest(page, PageSize)];
    if page > |steps| then here
    else match steps[page - 1]
      case Ok(Rows(_, totalPage)) => if page >= totalPage then here else here + RequestsFrom(steps, page + 1)
      case _ => here
  }

  /** Pages are requested as page, page + 1, ..., each with the fixed page
      size, and at least one is requested. */
  lemma {:induction false} RequestsNumbered(steps: seq<Result<PageStep>>, page: nat)
    requires page >= 1
    ensures |RequestsFrom(steps, page)| >= 1
    ensures forall i :: 0 <= i < |RequestsFrom(steps, page)| ==> RequestsFrom(steps, page)[i] == PageRequest(page + i, PageSize)
    decreases |steps| + 1 - page
  {
    if page <= |steps| && IsRows(steps[page - 1]) && page < steps[page - 1].value.totalPage {
      RequestsNumbered(steps, page + 1);
    }
  }

  /** A collected run sends one request per list collected: the last
      request is for the page that ended the loop. */
  lemma {:induction false} RequestsOfCollected(steps: seq<Result<PageStep>>, page: nat, acc: seq<seq<Json>>)
    requires page >= 1 && |acc| == page - 1
    requires PageLoop(steps, page, acc).Ok? && PageLoop(steps, page, acc).value.Collected?
    ensures |RequestsFrom(steps, page)| == |PageLoop(steps, page, acc).value.lists| - (page - 1)
    decreases |steps| + 1 - page
  {
    var step := steps[page - 1];
    if page < step.value.totalPage {
      RequestsOfCollected(steps, page + 1, acc + [step.value.list]);
    }
  }

  /** A run abandoned at page k sent requests for pages page..k. */
  lemma {:induction false} RequestsOfStopped(steps: seq<Result<PageStep>>, page: nat, k: nat)
    requires 1 <= page <= k <= |steps|
    requires forall i :: page - 1 <= i < k - 1 ==> IsRows(steps[i]) && steps[i].value.totalPage > i + 1
    requires steps[k - 1] == Ok(Stop)
    ensures |RequestsFrom(steps, page)| == k - page + 1
    decreases k - page
  {
    if page < k {
      RequestsOfStopped(steps, page + 1, k);
    }
  }

  /** A collected run read pages 1..k in order, one list per page: every
      page before the last reported more pages than its number, the last
      reported at most its number. So at least one page is requested. */
  lemma {:induction false} CollectedShape(steps: seq<Result<PageStep>>, page: nat, acc: seq<seq<Json>>)
    requires page >= 1 && |acc| == page - 1
    requires PageLoop(steps, page, acc).Ok? && PageLoop(steps, page, acc).value.Collected?
    ensures var lists := PageLoop(steps, page, acc).value.lists;
      && page <= |lists| <= |steps|
      && lists[..page - 1] == acc
      && (forall i :: page - 1 <= i < |lists| ==> IsRows(steps[i]) && steps[i].value.list == lists[i])
      && (forall i :: page - 1 <= i < |lists| - 1 ==> steps[i].value.totalPage > i + 1)
      && steps[|lists| - 1].value.totalPage <= |lists|
    decreases |steps| + 1 - page
  {
    var step := steps[page - 1];
    var next := acc + [step.value.list];
    if page < step.value.totalPage {
      CollectedShape(steps, page + 1, next);
      var lists := PageLoop(steps, page, acc).value.lists;
      assert lists[..page] == next;
      assert lists[..page - 1] == next[..page - 1];
      assert lists[page - 1] == next[page - 1];
    }
  }

  /** The loop run from the start: the lists collected are those of pages
      1..k, where k is the first page whose total_page is at most k. */
  lemma CollectedFromFirstPage(pages: seq<PageResponse>)
    requires PageLoop(Reads(pages), 1, []).Ok? && PageLoop(Reads(pages), 1, []).value.Collected?
    ensures var lists := PageLoop(Reads(pages), 1, []).value.lists;
      && 1 <= |lists| <= |pages|
      && (forall i :: 0 <= i < |lists| ==> IsRows(PageRead(pages[i])) && PageRead(pages[i]).value.list == lists[i])
      && (forall i :: 0 <= i < |lists| - 1 ==> PageRead(pages[i]).value.totalPage > i + 1)
      && PageRead(pages[|lists| - 1]).value.totalPage <= |lists|
  {
    CollectedShape(Reads(pages), 1, []);
  }

  /** A page that stops the loop (an API error, or total_number < 1)
      discards every list already collected. */
  lemma {:induction false} StopDiscards(steps: seq<Result<PageStep>>, page: nat, acc: seq<seq<Json>>, k: nat)
    requires 1 <= page <= k <= |steps|
    requires forall i :: page - 1 <= i < k - 1 ==> IsRows(steps[i]) && steps[i].value.totalPage > i + 1
    requires steps[k - 1] == Ok(Stop)
    ensures PageLoop(steps, page, acc) == Ok(Abandoned)
    decreases k - page
  {
    if page < k {
      StopDiscards(steps, page + 1, acc + [steps[page - 1].value.list], k);
    }
  }

  /** The pages that end the loop with an empty result: an API exception,
      or an accepted response whose `page_info.total_number` is a number
      below one (an integer up to 0, a float below 1.0, or `False`). */
  predicate StopsLoop(r: PageResponse)
  {
    || r.PageApiException?
    || (&& IsApiResponse(r.body)
        && "page_info" in Data(r.body) && Data(r.body)["page_info"].JObject?
        && "total_number" in Data(r.body)["page_info"].fields
        && IsNumber(Data(r.body)["page_info"].fields["total_number"])
        && NumberValue(Data(r.body)["page_info"].fields["total_number"]) < 1.0)
  }

  lemma PageStops(r: PageResponse)
    ensures PageRead(r) == Ok(Stop) <==> StopsLoop(r)
  {
  }

  /** A float or boolean page count compares as a number: `total_number`
      0.0 stops the loop, and a `total_page` of 2.5 leaves a third page to
      fetch after page 2. */
  lemma FloatPageCounts(items: seq<Json>)
    ensures PageRead(PageReply(JObject(map["data" := JObject(map["page_info" := JObject(map["total_number" := JFloat(0.0)])])])))
            == Ok(Stop)
    ensures PageRead(PageReply(JObject(map["data" := JObject(map["page_info" := JObject(map["total_number" := JBool(false)])])])))
            == Ok(Stop)
    ensures PageRead(PageReply(JObject(map["data" := JObject(map["list" := JList(items),
              "page_info" := JObject(map["total_number" := JFloat(3.0), "total_page" := JFloat(2.5)])])])))
            == Ok(Rows(items, 3))
  {
    assert Ceiling(2.5) == 3;
  }

  /** A stopping page reached by the loop empties the whole report, however
      many pages were collected before it. */
  lemma StoppedReportIsEmpty(pages: seq<PageResponse>, k: nat)
    requires 1 <= k <= |pages|
    requires forall i :: 0 <= i < k - 1 ==> IsRows(PageRead(pages[i])) && PageRead(pages[i]).value.totalPage > i + 1
    requires StopsLoop(pages[k - 1])
    ensures ReportCampaign(pages) == Ok([])
  {
    PageStops(pages[k - 1]);
    StopDiscards(Reads(pages), 1, [], k);
  }

  /** The requests of a collected run are pages 1..k, k being the number
      of lists collected, each with the fixed page size. */
  lemma CollectedRequests(pages: seq<PageResponse>)
    requires PageLoop(Reads(pages), 1, []).Ok? && PageLoop(Reads(pages), 1, []).value.Collected?
    ensures var k := |PageLoop(Reads(pages), 1, []).value.lists|;
      RequestsFrom(Reads(pages), 1) == seq(k, i requires 0 <= i < k => PageRequest(i + 1, PageSize))
  {
    RequestsNumbered(Reads(pages), 1);
    RequestsOfCollected(Reads(pages), 1, []);
  }

  /** The requests of a run stopped at page k are pages 1..k. */
  lemma StoppedRequests(pages: seq<PageResponse>, k: nat)
    requires 1 <= k <= |pages|
    requires forall i :: 0 <= i < k - 1 ==> IsRows(PageRead(pages[i])) && PageRead(pages[i]).value.totalPage > i + 1
    requires StopsLoop(pages[k - 1])
    ensures RequestsFrom(Reads(pages), 1) == seq(k, i requires 0 <= i < k => PageRequest(i + 1, PageSize))
  {
    PageStops(pages[k - 1]);
    RequestsNumbered(Reads(pages), 1);
    RequestsOfStopped(Reads(pages), 1, k);
  }

  // ---------------------------------------------------------------------
  // get_report_campaign: post-processing

  const Dimensions: seq<string> := ["stat_time_day", "campaign_id"]

  const Metrics: seq<string> := [
    "advertiser_id", "advertiser_name", "campaign_name", "objective_type",
    "reach", "impressions", "clicks", "video_play_actions", "result",
    "checkout", "spend", "ctr", "cpc", "cost_per_result"
  ]

  /** `dimensions + metrics`, the columns kept. */
  const ReportColumns: seq<string> := Dimensions + Metrics

  /** `metrics[4:]`, the columns coerced to numbers. */
  const NumericColumns: seq<string> := Metrics[4..]

  /** The concatenated rows of every page, in page order. */
  function Flat(lists: seq<seq<Json>>): (items: seq<Json>)
    ensures |items| == Sum(lists)
  {
    if lists == [] then [] else lists[0] + Flat(lists[1..])
  }

  /** A report item with both nested dictionaries. */
  predicate IsReportItem(j: Json)
  {
    j.JObject? && "dimensions" in j.fields && "metrics" in j.fields
    && j.fields["dimensions"].JObject? && j.fields["metrics"].JObject?
  }

  /** One item's two nested dictionaries side by side. */
  function Widen(j: Json): map<string, Json>
    requires IsReportItem(j)
  {
    j.fields["dimensions"].fields + j.fields["metrics"].fields
  }

  /** `pd.concat([df["dimensions"].apply(pd.Series), df["metrics"].apply(pd.Series)], axis=1)`:
      each item's two dictionaries side by side. Without any row the
      concatenated table has no "dimensions" column at all. */
  function Expand(items: seq<Json>): (r: Result<seq<map<string, Json>>>)
    ensures r.Ok? ==> |r.value| == |items| > 0
  {
    if items == [] then Err(MissingColumn("dimensions"))
    else if forall k :: 0 <= k < |items| ==> IsReportItem(items[k]) then
      Ok(seq(|items|, k requires 0 <= k < |items| && IsReportItem(items[k]) => Widen(items[k])))
    else Err(BadType)
  }

  /** The first of `cols` that no row has (the KeyError of the selection). */
  function MissingEverywhere(wide: seq<map<string, Json>>, cols: seq<string>): (c: Option<string>)
    ensures c.Some? ==> c.value in cols && forall k :: 0 <= k < |wide| ==> c.value !in wide[k]
    ensures c.None? ==> forall x :: x in cols ==> exists k :: 0 <= k < |wide| && x in wide[k]
  {
    if cols == [] then None
    else if forall k :: 0 <= k < |wide| ==> cols[0] !in wide[k] then Some(cols[0])
    else
      assert forall x :: x in cols ==> x == cols[0] || x in cols[1..];
      MissingEverywhere(wide, cols[1..])
  }

  /** One row restricted to the kept columns; a column the row lacks is NaN. */
  function Project(w: map<string, Json>, cols: seq<string>): (r: Row)
    ensures r.Keys == set c | c in cols
  {
    map c | c in cols :: if c in w then CellOf(w[c]) else VNone
  }

  /** `combined_df[dimensions + metrics]`. */
  function Select(wide: seq<map<string, Json>>, cols: seq<string>): (r: Result<seq<Row>>)
    ensures r.Ok? ==> |r.value| == |wide| && forall k :: 0 <= k < |wide| ==> r.value[k] == Project(wide[k], cols)
    ensures r.Err? <==> MissingEverywhere(wide, cols).Some?
  {
    match MissingEverywhere(wide, cols)
    case Some(c) => Err(MissingColumn(c))
    case None => Ok(seq(|wide|, k requires 0 <= k < |wide| => Project(wide[k], cols)))
  }

  /** `pd.to_datetime` of the date column: it raises on a value that is
      neither a day nor missing. */
  predicate DatesValid(rows: seq<Row>)
  {
    forall k :: 0 <= k < |rows| ==> Cell(rows[k], "stat_time_day").VDate? || Cell(rows[k], "stat_time_day").VNone?
  }

  /** `pd.to_numeric(v, errors="coerce")` on one cell: an integer text reads
      as its number, anything unreadable becomes NaN. */
  function Numeric(v: Value): (n: Value)
    ensures n.VInt? || n.VFloat? || n.VNone? || n.VBool?
  {
    match v
    case VInt(_) => v
    case VFloat(_) => v
    case VBool(_) => v
    case VText(s) => (match ParseInt(s) case Some(i) => VInt(i) case None => VNone)
    case _ => VNone
  }

  function CoerceRow(r: Row): (c: Row)
    ensures c.Keys == r.Keys
  {
    map col | col in r :: if col in NumericColumns then Numeric(r[col]) else r[col]
  }

  /** `rename({"stat_time_day": "date"})`. */
  function Rename(r: Row): (n: Row)
    ensures "stat_time_day" in r ==> n.Keys == r.Keys - {"stat_time_day"} + {"date"}
    ensures "stat_time_day" in r ==> n["date"] == r["stat_time_day"]
    ensures forall c :: c in r && c != "stat_time_day" && c != "date" ==> c in n && n[c] == r[c]
  {
    if "stat_time_day" in r then
      (map c | c in r && c != "stat_time_day" :: r[c])["date" := r["stat_time_day"]]
    else r
  }

  /** The cleaned rows of the kept columns `cols`, before the impressions
      filter. */
  function Prepared(lists: seq<seq<Json>>, cols: seq<string>): Result<seq<Row>>
  {
    var wide :- Expand(Flat(lists));
    var selected :- Select(wide, cols);
    if !DatesValid(selected) then Err(NotADate)
    else Ok(seq(|selected|, k requires 0 <= k < |selected| => CoerceRow(selected[k])))
  }

  /** Lines 113-131 after the loop: flatten, select, convert, filter, rename. */
  function Shape(lists: seq<seq<Json>>): Result<seq<Row>>
  {
    var rows :- Prepared(lists, ReportColumns);
    if rows == [] then Ok([])
    else
      var kept := KeepImpressions(rows);
      Ok(seq(|kept|, k requires 0 <= k < |kept| => Rename(kept[k])))
  }

  /** `get_report_campaign` over the canned page responses. */
  function ReportCampaign(pages: seq<PageResponse>): Result<seq<Row>>
  {
    match PageLoop(Reads(pages), 1, [])
    case Err(e) => Err(e)
    case Ok(Abandoned) => Ok([])
    case Ok(Collected(lists)) => Shape(lists)
  }

  /** The column names of an output row: the schema's with the date column
      renamed. */
  const OutputColumns: set<string> := ColumnSet - {"stat_time_day"} + {"date"}

  const ColumnSet: set<string> := set c | c in ReportColumns

  /** A list collected later comes after every earlier list's items. */
  lemma {:induction false} FlatAppend(lists: seq<seq<Json>>, l: seq<Json>)
    ensures Flat(lists + [l]) == Flat(lists) + l
  {
    if lists == [] {
      assert lists + [l] == [l];
    } else {
      assert (lists + [l])[1..] == lists[1..] + [l];
      FlatAppend(lists[1..], l);
    }
  }

  function Sum(lists: seq<seq<Json>>): nat
  {
    if lists == [] then 0 else |lists[0]| + Sum(lists[1..])
  }

  /** Every row of a report has exactly the output columns and a positive
      integer impression count (a count that failed coercion is NaN and
      dropped), and there are no more rows than items fetched. */
  lemma ShapeOutput(lists: seq<seq<Json>>)
    requires Shape(lists).Ok?
    ensures |Shape(lists).value| <= Sum(lists)
    ensures forall k :: 0 <= k < |Shape(lists).value| ==>
      Shape(lists).value[k].Keys == OutputColumns && HasImpressions(Shape(lists).value[k])
  {
    PreparedRows(lists, ReportColumns);
    assert ReportColumns[0] == "stat_time_day";
    var rows := Prepared(lists, ReportColumns).value;
    if rows != [] {
      var kept := KeepImpressions(rows);
      forall k | 0 <= k < |kept|
        ensures Rename(kept[k]).Keys == OutputColumns && HasImpressions(Rename(kept[k]))
      {
        assert kept[k] in kept;
        RenameKeeps(kept[k], ColumnSet);
      }
    }
  }

  /** The prepared rows are one per item fetched, in order: item k's two
      dictionaries side by side, restricted to the kept columns and
      coerced; each row has exactly the kept columns. */
  lemma PreparedRows(lists: seq<seq<Json>>, cols: seq<string>)
    requires Prepared(lists, cols).Ok?
    ensures |Prepared(lists, cols).value| == |Flat(lists)|
    ensures forall k :: 0 <= k < |Flat(lists)| ==>
      IsReportItem(Flat(lists)[k]) && Prepared(lists, cols).value[k] == CoerceRow(Project(Widen(Flat(lists)[k]), cols))
    ensures forall r :: r in Prepared(lists, cols).value ==> r.Keys == set c | c in cols
  {
  }

  /** The report rows of a prepared table, written as one pass: each row
      with impressions, renamed, in order. */
  function Reported(rows: seq<Row>): seq<Row>
  {
    if rows == [] then []
    else (if HasImpressions(rows[0]) then [Rename(rows[0])] else []) + Reported(rows[1..])
  }

  lemma {:induction false} ReportedIsRenamedKept(rows: seq<Row>)
    ensures |Reported(rows)| == |KeepImpressions(rows)|
    ensures forall k :: 0 <= k < |Reported(rows)| ==> Reported(rows)[k] == Rename(KeepImpressions(rows)[k])
  {
    if rows != [] {
      ReportedIsRenamedKept(rows[1..]);
      var tail := KeepImpressions(rows[1..]);
      if HasImpressions(rows[0]) {
        assert KeepImpressions(rows) == [rows[0]] + tail;
        assert Reported(rows) == [Rename(rows[0])] + Reported(rows[1..]);
        forall k | 1 <= k < |Reported(rows)|
          ensures Reported(rows)[k] == Rename(KeepImpressions(rows)[k])
        {
          assert Reported(rows)[k] == Reported(rows[1..])[k - 1];
          assert KeepImpressions(rows)[k] == tail[k - 1];
        }
      } else {
        assert KeepImpressions(rows) == tail;
        assert Reported(rows) == Reported(rows[1..]);
      }
    }
  }

  lemma {:induction false} ReportedMembers(rows: seq<Row>, x: Row)
    ensures x in Reported(rows) <==> exists k :: 0 <= k < |rows| && HasImpressions(rows[k]) && x == Rename(rows[k])
  {
    if rows != [] {
      ReportedMembers(rows[1..], x);
      if x in Reported(rows[1..]) {
        var k :| 0 <= k < |rows[1..]| && HasImpressions(rows[1..][k]) && x == Rename(rows[1..][k]);
        assert rows[k + 1] == rows[1..][k];
      }
      forall k | 1 <= k < |rows| && HasImpressions(rows[k]) && x == Rename(rows[k])
        ensures x in Reported(rows[1..])
      {
        assert rows[1..][k - 1] == rows[k];
      }
    }
  }

  /** Shaping fails exactly when preparing does; otherwise the report is
      the prepared rows with impressions, renamed, in order. */
  lemma ShapeRows(lists: seq<seq<Json>>)
    ensures Shape(lists).Ok? <==> Prepared(lists, ReportColumns).Ok?
    ensures Shape(lists).Ok? ==> Shape(lists).value == Reported(Prepared(lists, ReportColumns).value)
  {
    if Prepared(lists, ReportColumns).Ok? {
      ReportedIsRenamedKept(Prepared(lists, ReportColumns).value);
    }
  }

  /** The report holds exactly the fetched items with impressions, each
      as its two dictionaries side by side, restricted, coerced and
      renamed. */
  lemma ReportItems(lists: seq<seq<Json>>, x: Row)
    requires Shape(lists).Ok?
    ensures x in Shape(lists).value <==>
      (exists k :: 0 <= k < |Flat(lists)| && IsReportItem(Flat(lists)[k])
        && HasImpressions(CoerceRow(Project(Widen(Flat(lists)[k]), ReportColumns)))
        && x == Rename(CoerceRow(Project(Widen(Flat(lists)[k]), ReportColumns))))
  {
    ShapeRows(lists);
    PreparedRows(lists, ReportColumns);
    ReportedMembers(Prepared(lists, ReportColumns).value, x);
  }

  /** Renaming the date column keeps every other column and the impressions. */
  lemma RenameKeeps(r: Row, cols: set<string>)
    requires r.Keys == cols && "stat_time_day" in cols && HasImpressions(r)
    ensures Rename(r).Keys == cols - {"stat_time_day"} + {"date"} && HasImpressions(Rename(r))
  {
  }

  /** The kept columns are the TikTok table's columns, in order; the
      coerced ones are exactly its numeric columns after the identifiers
      and names. */
  lemma ColumnsMatchSchema()
    ensures |ReportColumns| == |TikTokSchema|
    ensures forall i :: 0 <= i < |ReportColumns| ==> ReportColumns[i] == TikTokSchema[i].name
    ensures forall i :: 6 <= i < |TikTokSchema| ==> TikTokSchema[i].fieldType in {Integer, Float}
    ensures forall i :: 0 <= i < 6 ==> TikTokSchema[i].fieldType in {String, Date}
    ensures NumericColumns == ReportColumns[6..]
  {
  }

  /** `get_report_campaign`: the page loop, then the post-processing. */
  method GetReportCampaign(pages: seq<PageResponse>) returns (report: Result<seq<Row>>, requests: seq<PageRequest>)
    ensures report == ReportCampaign(pages)
    ensures requests == RequestsFrom(Reads(pages), 1)
  {
    ghost var steps := Reads(pages);
    var page: nat := 1;
    var allReports: seq<seq<Json>> := [];
    requests := [];
    while true
      invariant page >= 1 && |allReports| == page - 1
      invariant PageLoop(steps, page, allReports) == PageLoop(steps, 1, [])
      invariant requests + RequestsFrom(steps, page) == RequestsFrom(steps, 1)
      decreases |pages| + 1 - page
    {
      requests := requests + [PageRequest(page, PageSize)];
      if page > |pages| {
        report := Err(OutOfResponses);
        return;
      }
      var step := PageRead(pages[page - 1]);
      assert step == steps[page - 1];
      if step.Err? {
        report := Err(step.error);
        return;
      }
      if step.value.Stop? {
        report := Ok([]);
        return;
      }
      allReports := allReports + [step.value.list];
      if page >= step.value.totalPage {
        break;
      }
      page := page + 1;
    }
    report := Shape(allReports);
  }

  // ---------------------------------------------------------------------
  // get_report: the daily orchestration

  /** The key the job hands to the loader. */
  const TikTokKey: seq<string> := ["date", "advertiser_id", "campaign_id"]

  datatype Stage = NoAdvertisers | NoReports | Handed(status: LoadStatus)

  /** What a run returns and what the destination holds afterwards. */
  datatype Run = Run(outcome: Result<Stage>, rows: seq<Row>)

  /** The result of `get_report_campaign` for each of `n` advertisers;
      `feeds[i]` answers the requests made for advertiser i. */
  function Reports(feeds: seq<seq<PageResponse>>, n: nat): (rs: seq<Result<seq<Row>>>)
    ensures |rs| == n
    ensures forall i :: 0 <= i < n ==> rs[i] == if i < |feeds| then ReportCampaign(feeds[i]) else Err(OutOfResponses)
  {
    seq(n, i requires 0 <= i < n => if i < |feeds| then ReportCampaign(feeds[i]) else Err(OutOfResponses))
  }

  /** `campaign_reports`: the non-empty reports in advertiser order; the
      first failing advertiser ends the run. */
  function Gather(results: seq<Result<seq<Row>>>): Result<seq<seq<Row>>>
  {
    if results == [] then Ok([])
    else
      var acc :- Gather(results[..|results| - 1]);
      var report :- results[|results| - 1];
      Ok(if EmptyFrame(report) then acc else acc + [report])
  }

  /** Gathering succeeds exactly when every advertiser's report does, and
      keeps no more reports than there are advertisers. */
  lemma {:induction false} GatherOk(results: seq<Result<seq<Row>>>)
    ensures Gather(results).Ok? <==> forall i :: 0 <= i < |results| ==> results[i].Ok?
    ensures Gather(results).Ok? ==> |Gather(results).value| <= |results|
  {
    if results != [] {
      var front := results[..|results| - 1];
      GatherOk(front);
      assert forall i :: 0 <= i < |front| ==> front[i] == results[i];
    }
  }

  /** A successful gathering holds every non-empty report and only those. */
  lemma {:induction false} GatherKeepsNonEmpty(results: seq<Result<seq<Row>>>)
    requires Gather(results).Ok?
    ensures forall k :: 0 <= k < |Gather(results).value| ==>
      !EmptyFrame(Gather(results).value[k]) && Ok(Gather(results).value[k]) in results
    ensures forall i :: 0 <= i < |results| && results[i].Ok? && !EmptyFrame(results[i].value) ==>
      results[i].value in Gather(results).value
  {
    if results != [] {
      var front := results[..|results| - 1];
      var last := results[|results| - 1];
      GatherOk(results);
      GatherKeepsNonEmpty(front);
      assert forall i :: 0 <= i < |front| ==> front[i] == results[i];
      assert Gather(results).value == if EmptyFrame(last.value) then Gather(front).value else Gather(front).value + [last.value];
    }
  }

  /** A failure is the first failing advertiser's. */
  lemma {:induction false} GatherFailsFirst(results: seq<Result<seq<Row>>>)
    requires Gather(results).Err?
    ensures exists i :: (0 <= i < |results| && results[i] == Err(Gather(results).error)
      && forall j :: 0 <= j < i ==> results[j].Ok?)
  {
    var front := results[..|results| - 1];
    assert forall i :: 0 <= i < |front| ==> front[i] == results[i];
    if Gather(front).Err? {
      GatherFailsFirst(front);
    } else {
      GatherOk(front);
      assert results[|results| - 1] == Err(Gather(results).error);
    }
  }

  lemma {:induction false} GatherFailureIsFinal(results: seq<Result<seq<Row>>>, i: nat)
    requires i <= |results|
    requires Gather(results[..i]).Err?
    ensures Gather(results) == Gather(results[..i])
    decreases |results| - i
  {
    if i == |results| {
      assert results[..i] == results;
    } else {
      var front := results[..|results| - 1];
      assert front[..i] == results[..i];
      GatherFailureIsFinal(front, i);
    }
  }

  /** `get_report`: advertisers, one report per advertiser, one load. */
  function ReportRun(sink: seq<Row>, adv: AdvertiserResponse, feeds: seq<seq<PageResponse>>, wh: Warehouse): Run
  {
    match GetAdvertisers(adv)
    case Err(e) => Run(Err(e), sink)
    case Ok(advertisers) =>
      if EmptyFrame(advertisers) then Run(Ok(NoAdvertisers), sink)
      else if forall k :: 0 <= k < |advertisers| ==> "advertiser_id" !in advertisers[k] then
        Run(Err(MissingColumn("advertiser_id")), sink)
      else match Gather(Reports(feeds, |advertisers|))
        case Err(e) => Run(Err(e), sink)
        case Ok(reports) =>
          if reports == [] then Run(Ok(NoReports), sink)
          else
            var effect := LoadEffect(sink, Concat(reports), TikTokKey, wh);
            Run(match effect.outcome case Ok(s) => Ok(Handed(s)) case Err(e) => Err(e), effect.rows)
  }

  /** With no advertisers nothing is fetched: the run does not depend on
      the report responses at all, and the destination is unchanged. */
  lemma NoAdvertisersNoFetch(sink: seq<Row>, adv: AdvertiserResponse, feeds1: seq<seq<PageResponse>>, feeds2: seq<seq<PageResponse>>, wh: Warehouse)
    requires GetAdvertisers(adv).Ok? && EmptyFrame(GetAdvertisers(adv).value)
    ensures ReportRun(sink, adv, feeds1, wh) == ReportRun(sink, adv, feeds2, wh) == Run(Ok(NoAdvertisers), sink)
  {
  }

  /** A report never fails with a key-arity fault. */
  lemma ReportCampaignErrors(pages: seq<PageResponse>)
    ensures ReportCampaign(pages).Err? ==> !ReportCampaign(pages).error.KeyArity?
  {
    var steps := Reads(pages);
    forall i | 0 <= i < |steps| && steps[i].Err?
      ensures !steps[i].error.KeyArity?
    {
      PageReadErrors(pages[i]);
    }
    PageLoopErrors(steps, 1, []);
  }

  /** Reading a page fails only on the response or its fields, never on a key. */
  lemma PageReadErrors(r: PageResponse)
    ensures PageRead(r).Err? ==> !PageRead(r).error.KeyArity?
  {
  }

  lemma {:induction false} PageLoopErrors(steps: seq<Result<PageStep>>, page: nat, acc: seq<seq<Json>>)
    requires page >= 1
    requires forall i :: 0 <= i < |steps| && steps[i].Err? ==> !steps[i].error.KeyArity?
    ensures PageLoop(steps, page, acc).Err? ==> !PageLoop(steps, page, acc).error.KeyArity?
    decreases |steps| + 1 - page
  {
    if page <= |steps| && IsRows(steps[page - 1]) {
      var step := steps[page - 1].value;
      if page < step.totalPage {
        PageLoopErrors(steps, page + 1, acc + [step.list]);
      }
    }
  }

  lemma GatherErrors(feeds: seq<seq<PageResponse>>, n: nat)
    ensures Gather(Reports(feeds, n)).Err? ==> !Gather(Reports(feeds, n)).error.KeyArity?
  {
    var results := Reports(feeds, n);
    if Gather(results).Err? {
      GatherFailsFirst(results);
      var i :| 0 <= i < |results| && results[i] == Err(Gather(results).error);
      if i < |feeds| {
        ReportCampaignErrors(feeds[i]);
      }
    }
  }

  /** The loader is called at most once, with the three-column key, and
      only when some report is non-empty; the loader as written rejects
      that key, so a run never changes the destination. */
  lemma RunNeverWrites(sink: seq<Row>, adv: AdvertiserResponse, feeds: seq<seq<PageResponse>>, wh: Warehouse)
    ensures ReportRun(sink, adv, feeds, wh).rows == sink
    ensures ReportRun(sink, adv, feeds, wh).outcome == Err(KeyArity(3)) <==>
      && GetAdvertisers(adv).Ok?
      && !EmptyFrame(GetAdvertisers(adv).value)
      && (exists k :: 0 <= k < |GetAdvertisers(adv).value| && "advertiser_id" in GetAdvertisers(adv).value[k])
      && Gather(Reports(feeds, |GetAdvertisers(adv).value|)).Ok?
      && Gather(Reports(feeds, |GetAdvertisers(adv).value|)).value != []
  {
    if GetAdvertisers(adv).Ok? {
      GatherErrors(feeds, |GetAdvertisers(adv).value|);
    }
  }

  lemma GatherStep(results: seq<Result<seq<Row>>>, i: nat)
    requires i < |results| && Gather(results[..i]).Ok?
    ensures results[i].Err? ==> Gather(results[..i + 1]) == Err(results[i].error)
    ensures results[i].Ok? ==> (Gather(results[..i + 1]) ==
      Ok(if EmptyFrame(results[i].value) then Gather(results[..i]).value
         else Gather(results[..i]).value + [results[i].value]))
  {
    assert results[..i + 1][..i] == results[..i];
  }

  /** The advertiser loop of `get_report`: one report per advertiser, the
      non-empty ones kept in order. */
  method CollectReports(feeds: seq<seq<PageResponse>>, n: nat) returns (gathered: Result<seq<seq<Row>>>)
    ensures gathered == Gather(Reports(feeds, n))
  {
    ghost var results := Reports(feeds, n);
    var reports: seq<seq<Row>> := [];
    for i := 0 to n
      invariant Gather(results[..i]) == Ok(reports)
    {
      var report: Result<seq<Row>>;
      if i >= |feeds| {
        report := Err(OutOfResponses);
      } else {
        var requests;
        report, requests := GetReportCampaign(feeds[i]);
      }
      GatherStep(results, i);
      if report.Err? {
        GatherFailureIsFinal(results, i + 1);
        return Err(report.error);
      }
      if !EmptyFrame(report.value) {
        reports := reports + [report.value];
      }
    }
    assert results[..n] == results;
    gathered := Ok(reports);
  }

  /** `get_report`: the advertiser loop accumulates the non-empty reports,
      then one load of their concatenation. */
  method GetReport(sink: Sink, adv: AdvertiserResponse, feeds: seq<seq<PageResponse>>, wh: Warehouse)
    returns (outcome: Result<Stage>)
    modifies sink
    ensures Run(outcome, sink.rows) == ReportRun(old(sink.rows), adv, feeds, wh)
  {
    var advertisers := GetAdvertisers(adv);
    if advertisers.Err? {
      return Err(advertisers.error);
    }
    var table := advertisers.value;
    if EmptyFrame(table) {
      return Ok(NoAdvertisers);
    }
    if forall k :: 0 <= k < |table| ==> "advertiser_id" !in table[k] {
      return Err(MissingColumn("advertiser_id"));
    }
    var gathered := CollectReports(feeds, |table|);
    if gathered.Err? {
      return Err(gathered.error);
    }
    var reports := gathered.value;
    if reports == [] {
      return Ok(NoReports);
    }
    var status := sink.Load(Concat(reports), TikTokKey, wh);
    outcome := match status case Ok(s) => Ok(Handed(s)) case Err(e) => Err(e);
  }
}
