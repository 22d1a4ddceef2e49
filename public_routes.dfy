/** The unauthenticated handlers of backend/src/routes/public.ts. They only read the store;
    any store failure becomes a 500 with a fixed message. */
module PublicRoutes {
  import opened Wrappers
  import opened Json
  import opened Responses
  import opened Trends
  import opened Db

  /** The `limit` used when the query string has none (or an empty one). */
  const DefaultLimit := 50

  /** `{trends, total}`: the total is the number of trends listed. */
  function TrendsBody(ts: seq<Trend>): (j: JsonValue)
    ensures j.JObj? && j.fields.Keys == {"trends", "total"}
    ensures j.fields["trends"].JArr? && j.fields["total"] == JInt(|j.fields["trends"].items|)
    ensures TrendsOfJson(j.fields["trends"]) == Some(ts)
  {
    TrendsOfJsonRoundTrip(ts);
    JObj(map["trends" := TrendsJson(ts), "total" := JInt(|ts|)])
  }

  /** Reads a list of trends back from JSON. */
  function TrendsOfJson(j: JsonValue): Option<seq<Trend>>
    decreases if j.JArr? then |j.items| else 0
  {
    if !j.JArr? then None
    else if |j.items| == 0 then Some([])
    else
      match (TrendOf(j.items[0]), TrendsOfJson(JArr(j.items[1..])))
      case (Some(t), Some(rest)) => Some([t] + rest)
      case _ => None
  }

  lemma {:induction false} TrendsOfJsonRoundTrip(ts: seq<Trend>)
    ensures TrendsOfJson(TrendsJson(ts)) == Some(ts)
  {
    if |ts| > 0 {
      TrendsOfJsonRoundTrip(ts[1..]);
      TrendJsonRoundTrip(ts[0]);
      assert TrendsJson(ts).items[1..] == TrendsJson(ts[1..]).items;
      assert [ts[0]] + ts[1..] == ts;
    }
  }

  /** `getTrends`: a non-empty `category` is served by the category query and the limit is
      ignored; otherwise all trends are scanned with `limit` (default 50). `limitParam` is the
      parsed `limit` query parameter, None when it is absent or empty. */
  method GetTrends(db: Store, category: Option<string>, limitParam: Option<int>) returns (r: ApiResponse)
    requires db.Valid()
    ensures !db.available ==> r == ServerError("Failed to fetch trends")
    ensures db.available && category.Some? && category.value != "" ==>
              exists ts :: && ListsTrendsOf(ts, db.trends)
                           && TrendIds(ts) == InCategory(db.trends, category.value)
                           && r == Success(TrendsBody(ts))
    ensures db.available && (category.None? || category.value == "") ==>
              var limit := limitParam.GetOr(DefaultLimit);
              if limit < 1 then r == ServerError("Failed to fetch trends")
              else exists ts :: && ListsTrendsOf(ts, db.trends)
                                && |ts| == Min(limit, |db.trends.Keys|)
                                && r == Success(TrendsBody(ts))
  {
    var limit := limitParam.GetOr(DefaultLimit);
    var trends: Result<seq<Trend>, StoreError>;
    if category.Some? && category.value != "" {
      trends := db.GetTrendsByCategory(category.value);
    } else {
      trends := db.GetAllTrends(Some(limit));
    }
    if trends.Err? {
      return ServerError("Failed to fetch trends");
    }
    r := Success(TrendsBody(trends.value));
  }

  /** `getTrendById`: 404 "Trend not found" for an absent id, otherwise the stored trend. */
  function GetTrendById(db: Store, id: string): (r: ApiResponse)
    reads db
    ensures !db.available ==> r == ServerError("Failed to fetch trend")
    ensures db.available && id !in db.trends ==> r == NotFound("Trend not found")
    ensures db.available && id in db.trends ==>
              && r.statusCode == 200 && HasStandardHeaders(r)
              && r.body.JObj? && r.body.fields.Keys == {"trend"}
              && TrendOf(r.body.fields["trend"]) == Some(db.trends[id])
  {
    match db.GetTrendById(id)
    case Err(_) => ServerError("Failed to fetch trend")
    case Ok(None) => NotFound("Trend not found")
    case Ok(Some(t)) =>
      TrendJsonRoundTrip(t);
      Success(JObj(map["trend" := TrendJson(t)]))
  }

  /** `getCategories`: the sorted distinct categories in use. */
  method GetCategories(db: Store) returns (r: ApiResponse)
    requires db.Valid()
    ensures !db.available ==> r == ServerError("Failed to fetch categories")
    ensures db.available ==>
              exists cs :: && Strings.StrictlySorted(cs)
                           && (forall c :: c in cs <==> exists id :: id in db.trends && db.trends[id].category == c)
                           && r == Success(JObj(map["categories" := StrArray(cs)]))
  {
    var categories := db.GetCategories();
    if categories.Err? {
      return ServerError("Failed to fetch categories");
    }
    r := Success(JObj(map["categories" := StrArray(categories.value)]));
  }
}
