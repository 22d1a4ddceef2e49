/** Sequences of requests against one store, stating what a client sees across calls. */
module Scenarios {
  import opened Wrappers
  import opened Json
  import opened Responses
  import opened Auth
  import opened Trends
  import opened Favorites
  import opened Db
  import PublicRoutes
  import UserRoutes
  import AdminRoutes

  /** Adding the same favorite twice: the first is created, the second is refused and
      stores nothing more. */
  method AddFavoriteTwice(db: Store, user: AuthUser, trendId: string, now: string) returns (first: ApiResponse, second: ApiResponse)
    requires db.Valid() && db.available
    requires trendId != "" && trendId in db.trends && (user.sub, trendId) !in db.favorites
    modifies db
    ensures first.statusCode == 201
    ensures second == BadRequest("Already in favorites")
    ensures db.favorites == old(db.favorites)[(user.sub, trendId) := Favorite(user.sub, trendId, now)]
  {
    var body := Parsed(UserRoutes.FavoriteBody(Some(trendId)));
    first := UserRoutes.AddFavorite(db, body, user, now);
    second := UserRoutes.AddFavorite(db, body, user, now);
  }

  /** Removing a favorite twice: the second request finds nothing and is a 404. */
  method RemoveFavoriteTwice(db: Store, user: AuthUser, trendId: string) returns (first: ApiResponse, second: ApiResponse)
    requires db.Valid() && db.available && (user.sub, trendId) in db.favorites
    modifies db
    ensures first.statusCode == 200 && second == NotFound("Favorite not found")
    ensures db.favorites == old(db.favorites) - {(user.sub, trendId)}
  {
    first := UserRoutes.RemoveFavorite(db, user, trendId);
    second := UserRoutes.RemoveFavorite(db, user, trendId);
  }

  /** A created trend is served by the public lookup exactly as stored. */
  method CreateThenGet(db: Store, body: AdminRoutes.TrendBody, id: string, now: string) returns (created: ApiResponse, fetched: ApiResponse)
    requires db.Valid() && db.available
    requires AdminRoutes.CreateRejection(Parsed(body)).None?
    modifies db
    ensures created.statusCode == 201 && fetched.statusCode == 200
    ensures fetched.body.JObj? && "trend" in fetched.body.fields
    ensures TrendOf(fetched.body.fields["trend"]) == Some(NewTrend(id, AdminRoutes.CreateInput(body), now))
  {
    created := AdminRoutes.CreateTrend(db, Parsed(body), id, now);
    fetched := PublicRoutes.GetTrendById(db, id);
  }

  /** A deleted trend is no longer served, and deleting it again is a 404. */
  method DeleteThenGet(db: Store, id: string) returns (deleted: ApiResponse, fetched: ApiResponse, again: ApiResponse)
    requires db.Valid() && db.available && id in db.trends
    modifies db
    ensures deleted.statusCode == 200
    ensures fetched == NotFound("Trend not found") && again == NotFound("Trend not found")
  {
    deleted := AdminRoutes.DeleteTrend(db, id);
    fetched := PublicRoutes.GetTrendById(db, id);
    again := AdminRoutes.DeleteTrend(db, id);
  }
}
