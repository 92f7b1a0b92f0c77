/** The warehouse table descriptors: ordered (name, type, mode) lists, one per
    destination table, never changed at run time. */
module Schemas {

  import opened Frames

  datatype FieldType = String | Integer | Float | Date
  datatype Mode = Required | Nullable
  datatype Field = Field(name: string, fieldType: FieldType, mode: Mode)

  /** The lookup table mapping a conversion-action category enum to its name. */
  const GoogleCategoryLookupSchema: seq<Field> := [
    Field("id", Integer, Required),
    Field("category_name", String, Required)
  ]

  /** The Google campaign report table. */
  const GoogleSchema: seq<Field> := [
    Field("segments_date", Date, Required),
    Field("campaign_id", String, Required),
    Field("customer_id", String, Nullable),
    Field("campaign_name", String, Nullable),
    Field("metrics_impressions", Integer, Nullable),
    Field("metrics_clicks", Integer, Nullable),
    Field("metrics_video_views", Integer, Nullable),
    Field("metrics_conversions", Float, Nullable),
    Field("metrics_all_conversions", Float, Nullable),
    Field("metrics_engagements", Integer, Nullable),
    Field("customer_currency_code", String, Nullable),
    Field("metrics_cost_micros", Float, Nullable),
    Field("metrics_ctr", Float, Nullable),
    Field("metrics_average_cpc", Float, Nullable),
    Field("metrics_absolute_top_impression_percentage", Float, Nullable),
    Field("metrics_top_impression_percentage", Float, Nullable),
    Field("metrics_view_through_conversions", Float, Nullable),
    Field("metrics_cost_per_conversion", Float, Nullable)
  ]

  /** The TikTok campaign report table. */
  const TikTokSchema: seq<Field> := [
    Field("stat_time_day", Date, Required),
    Field("campaign_id", String, Required),
    Field("advertiser_id", String, Nullable),
    Field("advertiser_name", String, Nullable),
    Field("campaign_name", String, Nullable),
    Field("objective_type", String, Nullable),
    Field("reach", Integer, Nullable),
    Field("impressions", Integer, Nullable),
    Field("clicks", Integer, Nullable),
    Field("video_play_actions", Integer, Nullable),
    Field("result", Integer, Nullable),
    Field("checkout", Integer, Nullable),
    Field("spend", Integer, Nullable),
    Field("ctr", Float, Nullable),
    Field("cpc", Float, Nullable),
    Field("cost_per_result", Float, Nullable)
  ]

  /** No two fields of a schema share a name. */
  predicate DistinctNames(s: seq<Field>)
  {
    forall i, j :: 0 <= i < j < |s| ==> s[i].name != s[j].name
  }

  /** The shape every report table shares: the partition date first, the
      campaign id second, both required; every later column nullable. */
  predicate ReportShape(s: seq<Field>, dateColumn: string)
  {
    && |s| >= 2
    && s[0] == Field(dateColumn, Date, Required)
    && s[1] == Field("campaign_id", String, Required)
    && forall i :: 2 <= i < |s| ==> s[i].mode == Nullable
  }

  /** The type a schema gives column `name`, if it has one. */
  function TypeOf(s: seq<Field>, name: string): (t: Option<FieldType>)
    ensures t.Some? ==> exists i :: 0 <= i < |s| && s[i].name == name && s[i].fieldType == t.value
    ensures t.None? ==> forall i :: 0 <= i < |s| ==> s[i].name != name
  {
    if s == [] then None
    else if s[0].name == name then Some(s[0].fieldType)
    else TypeOf(s[1..], name)
  }

  lemma LookupSchemaShape()
    ensures GoogleCategoryLookupSchema == [Field("id", Integer, Required), Field("category_name", String, Required)]
    ensures DistinctNames(GoogleCategoryLookupSchema)
  {
  }

  lemma GoogleSchemaShape()
    ensures |GoogleSchema| == 18
    ensures ReportShape(GoogleSchema, "segments_date")
  {
  }

  /** Distinctness, one block of rows at a time. */
  lemma GoogleDistinctFirst()
    ensures forall i, j :: 0 <= i < 6 && i < j < |GoogleSchema| ==> GoogleSchema[i].name != GoogleSchema[j].name
  {
  }

  lemma GoogleDistinctMiddle()
    ensures forall i, j :: 6 <= i < 12 && i < j < |GoogleSchema| ==> GoogleSchema[i].name != GoogleSchema[j].name
  {
  }

  lemma GoogleDistinctLast()
    ensures forall i, j :: 12 <= i < 17 && i < j < |GoogleSchema| ==> GoogleSchema[i].name != GoogleSchema[j].name
  {
  }

  lemma GoogleSchemaDistinct()
    ensures DistinctNames(GoogleSchema)
  {
    GoogleDistinctFirst();
    GoogleDistinctMiddle();
    GoogleDistinctLast();
  }

  lemma TikTokSchemaShape()
    ensures |TikTokSchema| == 16
    ensures ReportShape(TikTokSchema, "stat_time_day")
  {
  }

  /** Distinctness, one block of rows at a time. */
  lemma TikTokDistinctFirst()
    ensures forall i, j :: 0 <= i < 8 && i < j < |TikTokSchema| ==> TikTokSchema[i].name != TikTokSchema[j].name
  {
  }

  lemma TikTokDistinctLast()
    ensures forall i, j :: 8 <= i < 15 && i < j < |TikTokSchema| ==> TikTokSchema[i].name != TikTokSchema[j].name
  {
  }

  lemma TikTokSchemaDistinct()
    ensures DistinctNames(TikTokSchema)
  {
    TikTokDistinctFirst();
    TikTokDistinctLast();
  }

  /** Platform identifiers are stored as text, never as integers. */
  lemma GoogleIdsAreText()
    ensures TypeOf(GoogleSchema, "customer_id") == Some(String)
    ensures TypeOf(GoogleSchema, "campaign_id") == Some(String)
  {
  }

  lemma TikTokIdsAreText()
    ensures TypeOf(TikTokSchema, "campaign_id") == Some(String)
    ensures TypeOf(TikTokSchema, "advertiser_id") == Some(String)
  {
  }
}
