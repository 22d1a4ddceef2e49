/** The administrator handlers of backend/src/routes/admin.ts: create, update and delete
    a trend. Each validates its body before touching the store, and together they keep
    every stored popularity within 0..100. */
module AdminRoutes {
  import opened Wrappers
  import opened Json
  import opened Responses
  import opened Trends
  import opened Db

  /** The fields of a create or update body; None is an absent field. */
  datatype TrendBody = TrendBody(
    name: Option<string>,
    category: Option<string>,
    description: Option<string>,
    popularity: Option<int>,
    growth: Option<int>)

  const RequiredMessage := "name, category, and description are required"
  const PopularityMessage := "popularity must be between 0 and 100"
  const DefaultPopularity := 50
  const DefaultGrowth := 0

  /** A supplied popularity outside 0..100; an absent one is not checked. */
  predicate PopularityOutOfRange(p: Option<int>) {
    p.Some? && !PopularityInRange(p.value)
  }

  /** Every stored trend's popularity is within 0..100. */
  ghost predicate AllPopularityInRange(trends: map<string, Trend>) {
    forall id :: id in trends ==> PopularityInRange(trends[id].popularity)
  }

  // ---------------------------------------------------------------------------
  // createTrend
  // ---------------------------------------------------------------------------

  /** The validation of `createTrend`, first failure first; None when the body is accepted. */
  function CreateRejection(body: Parsed<TrendBody>): (e: Option<string>)
    ensures e.None? <==> && body.Parsed?
                         && Truthy(body.body.name) && Truthy(body.body.category) && Truthy(body.body.description)
                         && (body.body.popularity.None? || 0 <= body.body.popularity.value <= 100)
    ensures body.Malformed? ==> e == Some("Invalid JSON body")
  {
    if body.Malformed? then Some("Invalid JSON body")
    else
      var b := body.body;
      if !Truthy(b.name) || !Truthy(b.category) || !Truthy(b.description) then Some(RequiredMessage)
      else if PopularityOutOfRange(b.popularity) then Some(PopularityMessage)
      else None
  }

  /** The input handed to the store: popularity defaults to 50 and growth to 0. */
  function CreateInput(b: TrendBody): (input: CreateTrendInput)
    requires CreateRejection(Parsed(b)).None?
    ensures input.name == b.name.value && input.category == b.category.value
    ensures input.description == b.description.value
    ensures input.popularity == b.popularity.GetOr(DefaultPopularity)
    ensures input.growth == b.growth.GetOr(DefaultGrowth)
    ensures PopularityInRange(input.popularity)
  {
    CreateTrendInput(b.name.value, b.category.value, b.description.value,
                     b.popularity.GetOr(DefaultPopularity), b.growth.GetOr(DefaultGrowth))
  }

  /** A supplied popularity of 0 is kept, not replaced by the default (`??`, not `||`). */
  lemma ZeroPopularityKept(b: TrendBody)
    requires CreateRejection(Parsed(b)).None? && b.popularity == Some(0)
    ensures CreateInput(b).popularity == 0
  {
  }

  function CreatedBody(t: Trend): JsonValue {
    JObj(map["trend" := TrendJson(t), "message" := JStr("Trend created")])
  }

  /** `createTrend`: an accepted body is stored under the fresh `id`; the new trend can be
      read back and the popularity bound is kept. */
  method CreateTrend(db: Store, body: Parsed<TrendBody>, id: string, now: string) returns (r: ApiResponse)
    requires db.Valid()
    modifies db
    ensures db.Valid()
    ensures AllPopularityInRange(old(db.trends)) ==> AllPopularityInRange(db.trends)
    ensures CreateRejection(body).Some? ==> r == BadRequest(CreateRejection(body).value) && unchanged(db)
    ensures CreateRejection(body).None? && !old(db.available) ==>
              r == ServerError("Failed to create trend") && unchanged(db)
    ensures CreateRejection(body).None? && old(db.available) ==>
              var trend := NewTrend(id, CreateInput(body.body), now);
              && r == Success(CreatedBody(trend), 201)
              && db.trends == old(db.trends)[id := trend]
              && db.GetTrendById(id) == Ok(Some(trend))
              && db.favorites == old(db.favorites) && db.settings == old(db.settings)
  {
    var rejection := CreateRejection(body);
    if rejection.Some? {
      return BadRequest(rejection.value);
    }
    var trend := db.CreateTrend(CreateInput(body.body), id, now);
    if trend.Err? {
      return ServerError("Failed to create trend");
    }
    r := Success(CreatedBody(trend.value), 201);
  }

  // ---------------------------------------------------------------------------
  // updateTrend
  // ---------------------------------------------------------------------------

  /** The validation of `updateTrend`: only the popularity is checked. */
  function UpdateRejection(body: Parsed<TrendBody>): (e: Option<string>)
    ensures e.None? <==> body.Parsed? && (body.body.popularity.None? || 0 <= body.body.popularity.value <= 100)
    ensures body.Malformed? ==> e == Some("Invalid JSON body")
  {
    if body.Malformed? then Some("Invalid JSON body")
    else if PopularityOutOfRange(body.body.popularity) then Some(PopularityMessage)
    else None
  }

  /** The body is passed on as the update input, field for field. */
  function UpdateInput(b: TrendBody): (input: UpdateTrendInput)
    ensures input.name == b.name && input.category == b.category && input.description == b.description
    ensures input.popularity == b.popularity && input.growth == b.growth
    ensures UpdateRejection(Parsed(b)).None? ==> input.popularity.None? || PopularityInRange(input.popularity.value)
  {
    UpdateTrendInput(b.name, b.category, b.description, b.popularity, b.growth)
  }

  function UpdatedBody(t: Trend): JsonValue {
    JObj(map["trend" := TrendJson(t), "message" := JStr("Trend updated")])
  }

  /** `updateTrend`: an accepted body patches an existing trend; an unknown id is a 404
      that creates nothing. An empty category passes validation but is refused by the
      store, which the handler reports as a 500. */
  method UpdateTrend(db: Store, body: Parsed<TrendBody>, id: string, now: string) returns (r: ApiResponse)
    requires db.Valid()
    modifies db
    ensures db.Valid()
    ensures AllPopularityInRange(old(db.trends)) ==> AllPopularityInRange(db.trends)
    ensures UpdateRejection(body).Some? ==> r == BadRequest(UpdateRejection(body).value) && unchanged(db)
    ensures UpdateRejection(body).None? && !old(db.available) ==>
              r == ServerError("Failed to update trend") && unchanged(db)
    ensures UpdateRejection(body).None? && old(db.available) && id !in old(db.trends) ==>
              r == NotFound("Trend not found") && unchanged(db)
    ensures UpdateRejection(body).None? && old(db.available) && id in old(db.trends) && body.body.category == Some("") ==>
              r == ServerError("Failed to update trend") && unchanged(db)
    ensures UpdateRejection(body).None? && old(db.available) && id in old(db.trends) && body.body.category != Some("") ==>
              var trend := PatchTrend(old(db.trends)[id], UpdateInput(body.body), now);
              && r == Success(UpdatedBody(trend))
              && db.trends == old(db.trends)[id := trend]
              && db.favorites == old(db.favorites) && db.settings == old(db.settings)
  {
    var rejection := UpdateRejection(body);
    if rejection.Some? {
      return BadRequest(rejection.value);
    }
    ghost var before := db.trends;
    var trend := db.UpdateTrend(id, UpdateInput(body.body), now);
    if trend.Err? {
      return ServerError("Failed to update trend");
    }
    if trend.value.None? {
      return NotFound("Trend not found");
    }
    if AllPopularityInRange(before) {
      PatchKeepsPopularityInRange(before[id], UpdateInput(body.body), now);
    }
    r := Success(UpdatedBody(trend.value.value));
  }

  // ---------------------------------------------------------------------------
  // deleteTrend
  // ---------------------------------------------------------------------------

  function DeletedBody(id: string): JsonValue {
    JObj(map["message" := JStr("Trend deleted"), "id" := JStr(id)])
  }

  /** `deleteTrend`: existence is checked first, so deleting an unknown id is a 404. The
      trend's favorites are left in place. */
  method DeleteTrend(db: Store, id: string) returns (r: ApiResponse)
    requires db.Valid()
    modifies db
    ensures db.Valid()
    ensures AllPopularityInRange(old(db.trends)) ==> AllPopularityInRange(db.trends)
    ensures !old(db.available) ==> r == ServerError("Failed to delete trend") && unchanged(db)
    ensures old(db.available) && id !in old(db.trends) ==> r == NotFound("Trend not found") && unchanged(db)
    ensures old(db.available) && id in old(db.trends) ==>
              && r == Success(DeletedBody(id))
              && db.trends == old(db.trends) - {id}
              && db.GetTrendById(id) == Ok(None)
              && db.favorites == old(db.favorites) && db.settings == old(db.settings)
  {
    var existing := db.GetTrendById(id);
    if existing.Err? {
      return ServerError("Failed to delete trend");
    }
    if existing.value.None? {
      return NotFound("Trend not found");
    }
    var deleted := db.DeleteTrend(id);
    r := Success(DeletedBody(id));
  }
}
