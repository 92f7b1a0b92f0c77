/** The incremental loader (`check_existing_bigquery`, `load_data_to_bigquery`):
    read the destination's key columns over the batch's inclusive date window,
    drop every batch row whose key matches one of them, and append the rest,
    or write nothing when nothing is left. */
module Loader {

  import opened Frames

  /** Whether the two warehouse calls raise: the existing-rows read
      (`pandas_gbq.read_gbq`) and the append (`pandas_gbq.to_gbq`). */
  datatype Warehouse = Warehouse(readFails: bool, writeFails: bool)

  const Healthy: Warehouse := Warehouse(false, false)

  /** An inclusive range of days, `BETWEEN lo AND hi`. */
  datatype Window = Window(lo: int, hi: int)

  /** A destination row the window query selects: its date lies in the window.
      A missing date compares as SQL NULL and is never selected. */
  predicate Within(w: Window, r: Row, dateKey: string)
  {
    Cell(r, dateKey).VDate? && w.lo <= Cell(r, dateKey).day <= w.hi
  }

  /** The smallest window holding every date of the batch (`min()` and
      `max()` of the date column, which skip missing values). */
  function Span(batch: seq<Row>, dateKey: string): (s: Option<Window>)
    ensures s.None? <==> forall x :: x in batch ==> !Cell(x, dateKey).VDate?
    ensures s.Some? ==> forall x :: x in batch && Cell(x, dateKey).VDate? ==> Within(s.value, x, dateKey)
    ensures s.Some? ==> exists x :: x in batch && Cell(x, dateKey) == VDate(s.value.lo)
    ensures s.Some? ==> exists x :: x in batch && Cell(x, dateKey) == VDate(s.value.hi)
  {
    if batch == [] then None
    else
      var rest := Span(batch[1..], dateKey);
      assert forall x :: x in batch[1..] ==> x in batch;
      match Cell(batch[0], dateKey)
      case VDate(d) =>
        (match rest
         case None => Some(Window(d, d))
         case Some(w) => Some(Window(if d < w.lo then d else w.lo, if d > w.hi then d else w.hi)))
      case _ => rest
  }

  /** The date window of the batch, or the exception computing it raises:
      a date column that no row has (the frame lacks it; a row that lacks
      it alone holds NaN there), a value that is not a date, or no date at all. */
  function DateWindow(batch: seq<Row>, dateKey: string): (r: Result<Window>)
    ensures r.Ok? <==>
      && (forall x :: x in batch ==> Cell(x, dateKey).VDate? || Cell(x, dateKey).VNone?)
      && (exists x :: x in batch && Cell(x, dateKey).VDate?)
    ensures r == Err(MissingColumn(dateKey)) <==> batch != [] && forall x :: x in batch ==> dateKey !in x
    ensures r.Ok? ==> forall x :: x in batch && Cell(x, dateKey).VDate? ==> Within(r.value, x, dateKey)
  {
    if batch != [] && forall x :: x in batch ==> dateKey !in x then Err(MissingColumn(dateKey))
    else if exists x :: x in batch && !(Cell(x, dateKey).VDate? || Cell(x, dateKey).VNone?) then Err(NotADate)
    else match Span(batch, dateKey)
      case None => Err(NoDateWindow)
      case Some(w) => Ok(w)
  }

  /** The key tuple of a row: its values in the key columns, in key order. */
  function Key(r: Row, cols: seq<string>): (k: seq<Value>)
    ensures |k| == |cols|
  {
    seq(|cols|, i requires 0 <= i < |cols| => Cell(r, cols[i]))
  }

  /** The result of the existing-rows query: the key tuple of every
      destination row whose date lies in the window, in table order. */
  function ExistingKeys(sink: seq<Row>, dateKey: string, cols: seq<string>, w: Window): (keys: seq<seq<Value>>)
    ensures forall k :: k in keys <==> exists y :: y in sink && Within(w, y, dateKey) && Key(y, cols) == k
  {
    if sink == [] then []
    else
      assert forall y :: y in sink <==> y == sink[0] || y in sink[1..];
      (if Within(w, sink[0], dateKey) then [Key(sink[0], cols)] else []) + ExistingKeys(sink[1..], dateKey, cols, w)
  }

  /** The left anti-join: the batch rows whose key tuple is not among the
      existing ones, in batch order (`merge(how="left", indicator=True)` and
      keeping "left_only"). */
  function AntiJoin(batch: seq<Row>, existing: seq<seq<Value>>, cols: seq<string>): (news: seq<Row>)
    ensures |news| <= |batch|
    ensures forall x :: x in news <==> x in batch && Key(x, cols) !in existing
  {
    if batch == [] then []
    else
      var rest := AntiJoin(batch[1..], existing, cols);
      assert forall x :: x in batch <==> x == batch[0] || x in batch[1..];
      if Key(batch[0], cols) in existing then rest else [batch[0]] + rest
  }

  /** The first key column that no batch row has (the merge's KeyError);
      a row that lacks a column the frame has holds NaN there. */
  function AbsentColumn(batch: seq<Row>, cols: seq<string>): (c: Option<string>)
    ensures c.Some? ==> c.value in cols && batch != [] && forall x :: x in batch ==> c.value !in x
    ensures c.None? ==> forall k :: k in cols ==> batch == [] || exists x :: x in batch && k in x
  {
    if cols == [] then None
    else if batch != [] && forall x :: x in batch ==> cols[0] !in x then Some(cols[0])
    else
      assert forall k :: k in cols ==> k == cols[0] || k in cols[1..];
      AbsentColumn(batch, cols[1..])
  }

  /** The common core of both loaders: the window, the query, the anti-join. */
  function Reconcile(batch: seq<Row>, sink: seq<Row>, dateKey: string, cols: seq<string>, wh: Warehouse): Result<seq<Row>>
  {
    var w :- DateWindow(batch, dateKey);
    if wh.readFails then Err(ReadFailed)
    else match AbsentColumn(batch, cols)
      case Some(c) => Err(MissingColumn(c))
      case None => Ok(AntiJoin(batch, ExistingKeys(sink, dateKey, cols, w), cols))
  }

  /** `check_existing_bigquery` as written: the key must unpack into exactly
      two names, the date column and the campaign column. */
  function CheckExisting(batch: seq<Row>, sink: seq<Row>, key: seq<string>, wh: Warehouse): Result<seq<Row>>
  {
    if |key| != 2 then Err(KeyArity(|key|))
    else Reconcile(batch, sink, key[0], [key[0], key[1]], wh)
  }

  /** The same reconciliation over every column of the key, the date column
      first: the n-column anti-join the callers' 3- and 4-column keys call for. */
  function CheckExistingByKey(batch: seq<Row>, sink: seq<Row>, key: seq<string>, wh: Warehouse): Result<seq<Row>>
  {
    if |key| == 0 then Err(KeyArity(0))
    else Reconcile(batch, sink, key[0], key, wh)
  }

  datatype LoadStatus = NothingNew | Appended(count: nat)

  /** What a load returns and what the destination holds afterwards. */
  datatype Effect = Effect(outcome: Result<LoadStatus>, rows: seq<Row>)

  /** The write step of `load_data_to_bigquery`: nothing when the
      reconciliation raised or left nothing, otherwise one append. */
  function Commit(sink: seq<Row>, news: Result<seq<Row>>, wh: Warehouse): Effect
  {
    match news
    case Err(e) => Effect(Err(e), sink)
    case Ok(rows) =>
      if rows == [] then Effect(Ok(NothingNew), sink)
      else if wh.writeFails then Effect(Err(WriteFailed), sink)
      else Effect(Ok(Appended(|rows|)), sink + rows)
  }

  function LoadEffect(sink: seq<Row>, batch: seq<Row>, key: seq<string>, wh: Warehouse): Effect
  {
    Commit(sink, CheckExisting(batch, sink, key, wh), wh)
  }

  function LoadByKeyEffect(sink: seq<Row>, batch: seq<Row>, key: seq<string>, wh: Warehouse): Effect
  {
    Commit(sink, CheckExistingByKey(batch, sink, key, wh), wh)
  }

  /** A destination table: the rows it holds, in append order. */
  class Sink {
    var rows: seq<Row>

    constructor (initial: seq<Row>)
      ensures rows == initial
    {
      rows := initial;
    }

    /** `load_data_to_bigquery` as written. */
    method Load(batch: seq<Row>, key: seq<string>, wh: Warehouse) returns (outcome: Result<LoadStatus>)
      modifies this
      ensures Effect(outcome, rows) == LoadEffect(old(rows), batch, key, wh)
      ensures |key| != 2 ==> outcome == Err(KeyArity(|key|)) && rows == old(rows)
      ensures !outcome.Ok? || outcome.value.NothingNew? ==> rows == old(rows)
      ensures outcome.Ok? && outcome.value.Appended? ==>
        && CheckExisting(batch, old(rows), key, wh).Ok?
        && rows == old(rows) + CheckExisting(batch, old(rows), key, wh).value
        && outcome.value.count == |CheckExisting(batch, old(rows), key, wh).value| > 0
    {
      var news := CheckExisting(batch, rows, key, wh);
      outcome := Store(news, wh);
    }

    /** The load over the whole key, the date column first. */
    method LoadByKey(batch: seq<Row>, key: seq<string>, wh: Warehouse) returns (outcome: Result<LoadStatus>)
      modifies this
      ensures Effect(outcome, rows) == LoadByKeyEffect(old(rows), batch, key, wh)
      ensures !outcome.Ok? || outcome.value.NothingNew? ==> rows == old(rows)
      ensures outcome.Ok? && outcome.value.Appended? ==>
        && CheckExistingByKey(batch, old(rows), key, wh).Ok?
        && rows == old(rows) + CheckExistingByKey(batch, old(rows), key, wh).value
        && outcome.value.count == |CheckExistingByKey(batch, old(rows), key, wh).value| > 0
    {
      var news := CheckExistingByKey(batch, rows, key, wh);
      outcome := Store(news, wh);
    }

    method Store(news: Result<seq<Row>>, wh: Warehouse) returns (outcome: Result<LoadStatus>)
      modifies this
      ensures Effect(outcome, rows) == Commit(old(rows), news, wh)
    {
      if news.Err? {
        return Err(news.error);
      }
      if news.value == [] {
        return Ok(NothingNew);
      }
      if wh.writeFails {
        return Err(WriteFailed);
      }
      rows := rows + news.value;
      outcome := Ok(Appended(|news.value|));
    }
  }

  // ---------------------------------------------------------------------
  // Properties of the reconciliation

  /** The left-merge filter keeps the batch's order. */
  lemma {:induction false} AntiJoinIsSubsequence(batch: seq<Row>, existing: seq<seq<Value>>, cols: seq<string>)
    ensures IsSubsequence(AntiJoin(batch, existing, cols), batch)
  {
    if batch != [] {
      AntiJoinIsSubsequence(batch[1..], existing, cols);
    }
  }

  /** Each batch row survives exactly as often as it occurs in the batch when
      its key is new, and not at all otherwise: nothing is duplicated, and
      rows repeated inside one batch are not collapsed. */
  lemma {:induction false} AntiJoinCount(batch: seq<Row>, existing: seq<seq<Value>>, cols: seq<string>, x: Row)
    ensures multiset(AntiJoin(batch, existing, cols))[x] ==
            if Key(x, cols) in existing then 0 else multiset(batch)[x]
  {
    if batch != [] {
      AntiJoinCount(batch[1..], existing, cols, x);
      assert batch == [batch[0]] + batch[1..];
    }
  }

  /** The anti-join leaves nothing exactly when every batch key already exists. */
  lemma AntiJoinEmpty(batch: seq<Row>, existing: seq<seq<Value>>, cols: seq<string>)
    ensures AntiJoin(batch, existing, cols) == [] <==> forall x :: x in batch ==> Key(x, cols) in existing
  {
    var kept := AntiJoin(batch, existing, cols);
    if kept != [] {
      assert kept[0] in kept;
    }
  }

  lemma {:induction false} ExistingKeysAppend(a: seq<Row>, b: seq<Row>, dateKey: string, cols: seq<string>, w: Window)
    ensures ExistingKeys(a + b, dateKey, cols, w) == ExistingKeys(a, dateKey, cols, w) + ExistingKeys(b, dateKey, cols, w)
  {
    if a == [] {
      assert a + b == b;
    } else {
      assert (a + b)[0] == a[0] && (a + b)[1..] == a[1..] + b;
      ExistingKeysAppend(a[1..], b, dateKey, cols, w);
    }
  }

  /** The destination rows the window query selects, in table order. */
  function WindowRows(sink: seq<Row>, dateKey: string, w: Window): seq<Row>
  {
    if sink == [] then []
    else (if Within(w, sink[0], dateKey) then [sink[0]] else []) + WindowRows(sink[1..], dateKey, w)
  }

  lemma {:induction false} ExistingKeysOfWindow(sink: seq<Row>, dateKey: string, cols: seq<string>, w: Window)
    ensures ExistingKeys(sink, dateKey, cols, w) == ExistingKeys(WindowRows(sink, dateKey, w), dateKey, cols, w)
  {
    if sink != [] {
      ExistingKeysOfWindow(sink[1..], dateKey, cols, w);
      var head := if Within(w, sink[0], dateKey) then [sink[0]] else [];
      ExistingKeysAppend(head, WindowRows(sink[1..], dateKey, w), dateKey, cols, w);
    }
  }

  /** Only destination rows dated inside the batch's window are consulted:
      two destinations that agree on those rows give the same result. */
  lemma OnlyWindowConsulted(batch: seq<Row>, s1: seq<Row>, s2: seq<Row>, dateKey: string, cols: seq<string>, wh: Warehouse)
    requires DateWindow(batch, dateKey).Ok?
    requires WindowRows(s1, dateKey, DateWindow(batch, dateKey).value) == WindowRows(s2, dateKey, DateWindow(batch, dateKey).value)
    ensures Reconcile(batch, s1, dateKey, cols, wh) == Reconcile(batch, s2, dateKey, cols, wh)
  {
    var w := DateWindow(batch, dateKey).value;
    ExistingKeysOfWindow(s1, dateKey, cols, w);
    ExistingKeysOfWindow(s2, dateKey, cols, w);
  }

  /** The rows kept are exactly the batch rows whose key tuple matches no
      destination row dated inside the batch's window. */
  lemma NewRowsAreUnmatched(batch: seq<Row>, sink: seq<Row>, dateKey: string, cols: seq<string>, wh: Warehouse, x: Row)
    requires Reconcile(batch, sink, dateKey, cols, wh).Ok?
    ensures x in Reconcile(batch, sink, dateKey, cols, wh).value <==>
      x in batch && !exists y :: y in sink && Within(DateWindow(batch, dateKey).value, y, dateKey) && Key(y, cols) == Key(x, cols)
  {
  }

  /** A second load of the same batch, after a successful one, writes
      nothing: every row is then either matched or was just appended. Rows
      without a date are the exception (SQL never selects them back), so
      the batch is assumed fully dated. */
  lemma {:induction false} ReconcileAgainIsEmpty(batch: seq<Row>, sink: seq<Row>, dateKey: string, cols: seq<string>, wh: Warehouse)
    requires Reconcile(batch, sink, dateKey, cols, wh).Ok?
    requires forall x :: x in batch ==> Cell(x, dateKey).VDate?
    requires dateKey in cols
    ensures Reconcile(batch, sink + Reconcile(batch, sink, dateKey, cols, wh).value, dateKey, cols, Healthy) == Ok([])
  {
    var w := DateWindow(batch, dateKey).value;
    var before := ExistingKeys(sink, dateKey, cols, w);
    var news := AntiJoin(batch, before, cols);
    var after := sink + news;
    ExistingKeysAppend(sink, news, dateKey, cols, w);
    forall x | x in batch ensures Key(x, cols) in ExistingKeys(after, dateKey, cols, w) {
      if Key(x, cols) !in before {
        assert x in news && Within(w, x, dateKey);
        assert Key(x, cols) in ExistingKeys(news, dateKey, cols, w);
      }
    }
    AntiJoinEmpty(batch, ExistingKeys(after, dateKey, cols, w), cols);
  }

  /** Idempotence of the n-column load: loading the same fully dated batch
      again after a successful load finds nothing new and leaves the
      destination as it was. */
  lemma ReloadByKeyWritesNothing(sink: seq<Row>, batch: seq<Row>, key: seq<string>, wh: Warehouse)
    requires LoadByKeyEffect(sink, batch, key, wh).outcome.Ok?
    requires |key| >= 1 && forall x :: x in batch ==> Cell(x, key[0]).VDate?
    ensures var after := LoadByKeyEffect(sink, batch, key, wh).rows;
            LoadByKeyEffect(after, batch, key, Healthy) == Effect(Ok(NothingNew), after)
  {
    var news := Reconcile(batch, sink, key[0], key, wh).value;
    ReconcileAgainIsEmpty(batch, sink, key[0], key, wh);
    if news == [] {
      assert sink + news == sink;
    }
  }

  /** Idempotence of the two-column load as written. */
  lemma ReloadWritesNothing(sink: seq<Row>, batch: seq<Row>, key: seq<string>, wh: Warehouse)
    requires LoadEffect(sink, batch, key, wh).outcome.Ok?
    requires forall x :: x in batch ==> Cell(x, key[0]).VDate?
    ensures var after := LoadEffect(sink, batch, key, wh).rows;
            LoadEffect(after, batch, key, Healthy) == Effect(Ok(NothingNew), after)
  {
    var cols := [key[0], key[1]];
    var news := Reconcile(batch, sink, key[0], cols, wh).value;
    ReconcileAgainIsEmpty(batch, sink, key[0], cols, wh);
    if news == [] {
      assert sink + news == sink;
    }
  }

  /** On a two-column key the load as written and the n-column load agree. */
  lemma TwoColumnLoadsAgree(sink: seq<Row>, batch: seq<Row>, key: seq<string>, wh: Warehouse)
    requires |key| == 2
    ensures LoadEffect(sink, batch, key, wh) == LoadByKeyEffect(sink, batch, key, wh)
  {
    assert [key[0], key[1]] == key;
  }

  // ---------------------------------------------------------------------
  // The reconciliation scenario: one of two fetched rows already loaded

  const Day20240301: int := 19783   // days since 1970-01-01

  function Report(campaign: string): Row
  {
    map["date" := VDate(Day20240301), "advertiser_id" := VText("advX"), "campaign_id" := VText(campaign)]
  }

  const ScenarioKey: seq<string> := ["date", "advertiser_id", "campaign_id"]

  /** The cells of a scenario row. */
  lemma ReportCells(campaign: string)
    ensures "date" in Report(campaign) && "advertiser_id" in Report(campaign) && "campaign_id" in Report(campaign)
    ensures Cell(Report(campaign), "date") == VDate(Day20240301)
    ensures Key(Report(campaign), ScenarioKey) == [VDate(Day20240301), VText("advX"), VText(campaign)]
  {
    var k := Key(Report(campaign), ScenarioKey);
    assert k[0] == VDate(Day20240301) && k[1] == VText("advX") && k[2] == VText(campaign);
  }

  lemma ScenarioWindow()
    ensures DateWindow([Report("campY"), Report("campZ")], "date") == Ok(Window(Day20240301, Day20240301))
  {
    ReportCells("campY");
    ReportCells("campZ");
    var batch := [Report("campY"), Report("campZ")];
    assert batch[1..] == [Report("campZ")] && batch[1..][1..] == [];
    assert Span([Report("campZ")], "date") == Some(Window(Day20240301, Day20240301));
  }

  /** A row that lacks the date column holds NaN there: `min()` and `max()`
      skip it, and the window is the other row's date. */
  lemma ScenarioUndatedRow()
    ensures DateWindow([Report("campY"), map["campaign_id" := VText("campZ")]], "date") == Ok(Window(Day20240301, Day20240301))
  {
    ReportCells("campY");
    var undated: Row := map["campaign_id" := VText("campZ")];
    var batch := [Report("campY"), undated];
    assert "date" !in undated;
    assert batch[1..] == [undated] && batch[1..][1..] == [];
    assert Span([undated], "date") == None;
  }

  lemma ScenarioExisting()
    ensures ExistingKeys([Report("campY")], "date", ScenarioKey, Window(Day20240301, Day20240301))
            == [Key(Report("campY"), ScenarioKey)]
  {
    ReportCells("campY");
    assert [Report("campY")][1..] == [];
  }

  lemma ScenarioNews()
    ensures AntiJoin([Report("campY"), Report("campZ")], [Key(Report("campY"), ScenarioKey)], ScenarioKey) == [Report("campZ")]
    ensures AbsentColumn([Report("campY"), Report("campZ")], ScenarioKey) == None
  {
    ReportCells("campY");
    ReportCells("campZ");
    var batch := [Report("campY"), Report("campZ")];
    assert batch[1..] == [Report("campZ")] && batch[1..][1..] == [];
    assert Key(Report("campZ"), ScenarioKey)[2] != Key(Report("campY"), ScenarioKey)[2];
  }

  /** With the three-column key the callers use, the load as written raises
      before reading or writing anything; the n-column load appends exactly
      the row for campZ. */
  lemma ScenarioOneRowAppended()
    ensures LoadEffect([Report("campY")], [Report("campY"), Report("campZ")], ScenarioKey, Healthy)
            == Effect(Err(KeyArity(3)), [Report("campY")])
    ensures LoadByKeyEffect([Report("campY")], [Report("campY"), Report("campZ")], ScenarioKey, Healthy)
            == Effect(Ok(Appended(1)), [Report("campY"), Report("campZ")])
  {
    ScenarioWindow();
    ScenarioExisting();
    ScenarioNews();
  }
}
