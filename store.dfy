/** The three data-access modules (backend/src/db/trends.ts, favorites.ts, userSettings.ts)
    over one store whose tables are maps. `available` stands for the store being reachable:
    when it is false every call throws and nothing changes. */
module Db {
  import opened Wrappers
  import opened Strings
  import opened Trends
  import opened Favorites
  import opened UserSettings

  datatype StoreError =
    | Unavailable             // the store could not be reached
    | ValidationFailed        // the store rejected the request (a Scan `Limit` below 1, an empty key)
    | ConditionalCheckFailed  // a conditional put found the key already present

  /** `category` is the hash key of the `category-index` secondary index, and the store
      refuses to write an empty string into a key attribute. */
  predicate EmptyIndexKey(category: string) {
    category == ""
  }

  function Min(a: int, b: int): int {
    if a <= b then a else b
  }

  /** `s` lists distinct trends of `table`, each exactly as stored under its id. */
  ghost predicate ListsTrendsOf(s: seq<Trend>, table: map<string, Trend>) {
    && (forall i :: 0 <= i < |s| ==> s[i].id in table && table[s[i].id] == s[i])
    && (forall i, j :: 0 <= i < j < |s| ==> s[i].id != s[j].id)
  }

  ghost function TrendIds(s: seq<Trend>): set<string> {
    set i | 0 <= i < |s| :: s[i].id
  }

  /** `s` lists distinct favorites of `table`, each exactly as stored under its key. */
  ghost predicate ListsFavoritesOf(s: seq<Favorite>, table: map<FavoriteKey, Favorite>) {
    && (forall i :: 0 <= i < |s| ==> KeyOf(s[i]) in table && table[KeyOf(s[i])] == s[i])
    && (forall i, j :: 0 <= i < j < |s| ==> KeyOf(s[i]) != KeyOf(s[j]))
  }

  ghost function FavoriteKeys(s: seq<Favorite>): set<FavoriteKey> {
    set i | 0 <= i < |s| :: KeyOf(s[i])
  }

  lemma TrendIdsSnoc(s: seq<Trend>, t: Trend)
    ensures TrendIds(s + [t]) == TrendIds(s) + {t.id}
  {
    var s' := s + [t];
    assert s'[|s|] == t;
    forall x | x in TrendIds(s) ensures x in TrendIds(s') {
      var i :| 0 <= i < |s| && s[i].id == x;
      assert s'[i] == s[i];
    }
  }

  lemma FavoriteKeysSnoc(s: seq<Favorite>, f: Favorite)
    ensures FavoriteKeys(s + [f]) == FavoriteKeys(s) + {KeyOf(f)}
  {
    var s' := s + [f];
    assert s'[|s|] == f;
    forall x | x in FavoriteKeys(s) ensures x in FavoriteKeys(s') {
      var i :| 0 <= i < |s| && KeyOf(s[i]) == x;
      assert s'[i] == s[i];
    }
  }

  /** The ids of the trends in a category. */
  ghost function InCategory(table: map<string, Trend>, category: string): set<string> {
    set id | id in table && table[id].category == category
  }

  /** The keys of a user's favorites. */
  ghost function OfUser(table: map<FavoriteKey, Favorite>, userId: string): set<FavoriteKey> {
    set k | k in table && k.0 == userId
  }

  class Store {
    var trends: map<string, Trend>
    var favorites: map<FavoriteKey, Favorite>
    var settings: map<string, UserSettings>
    var available: bool

    /** Every record is stored under its own key: at most one favorite per (userId, trendId). */
    ghost predicate Valid()
      reads this
    {
      && (forall id :: id in trends ==> trends[id].id == id)
      && (forall k :: k in favorites ==> KeyOf(favorites[k]) == k)
      && (forall u :: u in settings ==> settings[u].userId == u)
    }

    constructor (available: bool)
      ensures Valid() && this.available == available
      ensures trends == map[] && favorites == map[] && settings == map[]
    {
      trends, favorites, settings := map[], map[], map[];
      this.available := available;
    }

    // -------------------------------------------------------------------------
    // trends.ts
    // -------------------------------------------------------------------------

    /** `getAllTrends(limit)`: a Scan. Its order is the store's, so the keys are taken in
        an unspecified order; a limit caps the number of records. */
    method GetAllTrends(limit: Option<int>) returns (r: Result<seq<Trend>, StoreError>)
      requires Valid()
      ensures !available ==> r == Err(Unavailable)
      ensures available && limit.Some? && limit.value < 1 ==> r == Err(ValidationFailed)
      ensures available && (limit.None? || limit.value >= 1) ==> r.Ok?
      ensures r.Ok? ==> ListsTrendsOf(r.value, trends)
      ensures r.Ok? && limit.None? ==> TrendIds(r.value) == trends.Keys
      ensures r.Ok? && limit.Some? ==> |r.value| == Min(limit.value, |trends.Keys|)
    {
      if !available {
        return Err(Unavailable);
      }
      if limit.Some? && limit.value < 1 {
        return Err(ValidationFailed);
      }
      var rest := trends.Keys;
      var found: seq<Trend> := [];
      while rest != {} && (limit.None? || |found| < limit.value)
        invariant rest <= trends.Keys
        invariant ListsTrendsOf(found, trends)
        invariant TrendIds(found) == trends.Keys - rest
        invariant |found| + |rest| == |trends.Keys|
        invariant limit.Some? ==> |found| <= limit.value
        decreases rest
      {
        var id :| id in rest;
        assert id !in TrendIds(found);
        TrendIdsSnoc(found, trends[id]);
        found := found + [trends[id]];
        rest := rest - {id};
      }
      r := Ok(found);
    }

    /** `getTrendsByCategory(category)`: a Query on the category index. */
    method GetTrendsByCategory(category: string) returns (r: Result<seq<Trend>, StoreError>)
      requires Valid()
      ensures r.Ok? <==> available
      ensures !available ==> r == Err(Unavailable)
      ensures r.Ok? ==> ListsTrendsOf(r.value, trends) && TrendIds(r.value) == InCategory(trends, category)
    {
      if !available {
        return Err(Unavailable);
      }
      var rest := trends.Keys;
      var found: seq<Trend> := [];
      while rest != {}
        invariant rest <= trends.Keys
        invariant ListsTrendsOf(found, trends)
        invariant forall i :: 0 <= i < |found| ==> found[i].id !in rest && found[i].category == category
        invariant TrendIds(found) == InCategory(trends, category) - rest
        decreases rest
      {
        var id :| id in rest;
        if trends[id].category == category {
          TrendIdsSnoc(found, trends[id]);
          found := found + [trends[id]];
        }
        rest := rest - {id};
      }
      r := Ok(found);
    }

    /** `getTrendById(id)`: the stored record, or null when the id is absent. */
    function GetTrendById(id: string): (r: Result<Option<Trend>, StoreError>)
      reads this
      ensures r.Ok? <==> available
      ensures r.Ok? ==> (r.value.Some? <==> id in trends)
      ensures r.Ok? && r.value.Some? ==> r.value.value == trends[id]
    {
      if !available then Err(Unavailable) else Ok(Lookup(trends, id))
    }

    /** `createTrend(input)`: an unconditional put of a record with the fresh `id` and `now`
        as both timestamps; an empty category is refused by the store. */
    method CreateTrend(input: CreateTrendInput, id: string, now: string) returns (r: Result<Trend, StoreError>)
      requires Valid()
      modifies this
      ensures Valid() && available == old(available)
      ensures !available ==> r == Err(Unavailable) && unchanged(this)
      ensures available && EmptyIndexKey(input.category) ==> r == Err(ValidationFailed) && unchanged(this)
      ensures available && !EmptyIndexKey(input.category) ==>
                r == Ok(NewTrend(id, input, now))
                && trends == old(trends)[id := r.value]
                && favorites == old(favorites) && settings == old(settings)
    {
      if !available {
        return Err(Unavailable);
      }
      if EmptyIndexKey(input.category) {
        return Err(ValidationFailed);
      }
      var trend := NewTrend(id, input, now);
      trends := trends[id := trend];
      r := Ok(trend);
    }

    /** `updateTrend(id, input)`: null for an absent id; otherwise the update expression is
        built clause by clause and applied, and the new record returned. Setting the category
        to the empty string is refused by the store after the existence check. */
    method UpdateTrend(id: string, input: UpdateTrendInput, now: string) returns (r: Result<Option<Trend>, StoreError>)
      requires Valid()
      modifies this
      ensures Valid() && available == old(available)
      ensures !available ==> r == Err(Unavailable) && unchanged(this)
      ensures available && id !in old(trends) ==> r == Ok(None) && unchanged(this)
      ensures available && id in old(trends) && input.category.Some? && EmptyIndexKey(input.category.value) ==>
                r == Err(ValidationFailed) && unchanged(this)
      ensures available && id in old(trends) && !(input.category.Some? && EmptyIndexKey(input.category.value)) ==>
                r == Ok(Some(PatchTrend(old(trends)[id], input, now)))
                && trends == old(trends)[id := r.value.value]
                && favorites == old(favorites) && settings == old(settings)
    {
      var existing := GetTrendById(id);
      if existing.Err? {
        return Err(existing.error);
      }
      if existing.value.None? {
        return Ok(None);
      }
      if input.category.Some? && EmptyIndexKey(input.category.value) {
        return Err(ValidationFailed);
      }
      var updates := BuildUpdateExpression(input, now);
      var updated := ApplyAll(existing.value.value, updates);
      trends := trends[id := updated];
      r := Ok(Some(updated));
    }

    /** `deleteTrend(id)`: an unconditional delete that reports true even when nothing was there. */
    method DeleteTrend(id: string) returns (r: Result<bool, StoreError>)
      requires Valid()
      modifies this
      ensures Valid() && available == old(available)
      ensures !available ==> r == Err(Unavailable) && unchanged(this)
      ensures available ==>
                r == Ok(true) && trends == old(trends) - {id}
                && favorites == old(favorites) && settings == old(settings)
    {
      if !available {
        return Err(Unavailable);
      }
      trends := trends - {id};
      r := Ok(true);
    }

    /** `getCategories()`: the categories of all stored trends, sorted, each once. */
    method GetCategories() returns (r: Result<seq<string>, StoreError>)
      requires Valid()
      ensures r.Ok? <==> available
      ensures !available ==> r == Err(Unavailable)
      ensures r.Ok? ==> StrictlySorted(r.value)
      ensures r.Ok? ==> forall c :: c in r.value <==> exists id :: id in trends && trends[id].category == c
    {
      var all := GetAllTrends(None);
      if all.Err? {
        return Err(all.error);
      }
      var ts := all.value;
      var cs := Categories(ts);
      forall c ensures c in cs <==> exists id :: id in trends && trends[id].category == c {
        if c in cs {
          var i :| 0 <= i < |ts| && ts[i].category == c;
          assert ts[i].id in trends && trends[ts[i].id].category == c;
        }
        if exists id :: id in trends && trends[id].category == c {
          var id :| id in trends && trends[id].category == c;
          assert id in TrendIds(ts);
          var i :| 0 <= i < |ts| && ts[i].id == id;
          assert ts[i].category == c;
        }
      }
      r := Ok(cs);
    }

    // -------------------------------------------------------------------------
    // favorites.ts
    // -------------------------------------------------------------------------

    /** `getFavoritesByUser(userId)`: a Query on the partition key. */
    method GetFavoritesByUser(userId: string) returns (r: Result<seq<Favorite>, StoreError>)
      requires Valid()
      ensures r.Ok? <==> available
      ensures !available ==> r == Err(Unavailable)
      ensures r.Ok? ==> ListsFavoritesOf(r.value, favorites) && FavoriteKeys(r.value) == OfUser(favorites, userId)
    {
      if !available {
        return Err(Unavailable);
      }
      var rest := favorites.Keys;
      var found: seq<Favorite> := [];
      while rest != {}
        invariant rest <= favorites.Keys
        invariant ListsFavoritesOf(found, favorites)
        invariant forall i :: 0 <= i < |found| ==> KeyOf(found[i]) !in rest && found[i].userId == userId
        invariant FavoriteKeys(found) == OfUser(favorites, userId) - rest
        decreases rest
      {
        var k :| k in rest;
        if k.0 == userId {
          FavoriteKeysSnoc(found, favorites[k]);
          found := found + [favorites[k]];
        }
        rest := rest - {k};
      }
      r := Ok(found);
    }

    /** `getFavorite(userId, trendId)`: the record stored under the pair, or null. */
    function GetFavorite(userId: string, trendId: string): (r: Result<Option<Favorite>, StoreError>)
      reads this
      ensures r.Ok? <==> available
      ensures r.Ok? ==> (r.value.Some? <==> (userId, trendId) in favorites)
      ensures r.Ok? && r.value.Some? ==> r.value.value == favorites[(userId, trendId)]
    {
      if !available then Err(Unavailable)
      else if (userId, trendId) in favorites then Ok(Some(favorites[(userId, trendId)]))
      else Ok(None)
    }

    /** `addFavorite(userId, trendId)`: a put conditional on the pair being absent. */
    method AddFavorite(userId: string, trendId: string, now: string) returns (r: Result<Favorite, StoreError>)
      requires Valid()
      modifies this
      ensures Valid() && available == old(available)
      ensures !available ==> r == Err(Unavailable) && unchanged(this)
      ensures available && (userId, trendId) in old(favorites) ==> r == Err(ConditionalCheckFailed) && unchanged(this)
      ensures available && (userId, trendId) !in old(favorites) ==>
                r == Ok(Favorite(userId, trendId, now))
                && favorites == old(favorites)[(userId, trendId) := r.value]
                && trends == old(trends) && settings == old(settings)
    {
      if !available {
        return Err(Unavailable);
      }
      var favorite := Favorite(userId, trendId, now);
      if (userId, trendId) in favorites {
        return Err(ConditionalCheckFailed);
      }
      favorites := favorites[(userId, trendId) := favorite];
      r := Ok(favorite);
    }

    /** `removeFavorite(userId, trendId)`: an unconditional delete that reports true. */
    method RemoveFavorite(userId: string, trendId: string) returns (r: Result<bool, StoreError>)
      requires Valid()
      modifies this
      ensures Valid() && available == old(available)
      ensures !available ==> r == Err(Unavailable) && unchanged(this)
      ensures available ==>
                r == Ok(true) && favorites == old(favorites) - {(userId, trendId)}
                && trends == old(trends) && settings == old(settings)
    {
      if !available {
        return Err(Unavailable);
      }
      favorites := favorites - {(userId, trendId)};
      r := Ok(true);
    }

    // -------------------------------------------------------------------------
    // userSettings.ts
    // -------------------------------------------------------------------------

    /** `getUserSettings(userId)`: the stored record, or the default record stamped `now`,
        which is not written. */
    function GetUserSettings(userId: string, now: string): (r: Result<UserSettings, StoreError>)
      reads this
      ensures r.Ok? <==> available
      ensures r.Ok? && userId in settings ==> r.value == settings[userId]
      ensures r.Ok? && userId !in settings ==> r.value == DefaultSettings(userId, now)
    {
      if !available then Err(Unavailable)
      else if userId in settings then Ok(settings[userId])
      else Ok(DefaultSettings(userId, now))
    }

    /** `updateUserSettings(userId, patch)`: read (or default), merge, overwrite the whole row. */
    method UpdateUserSettings(userId: string, patch: SettingsPatch, now: string) returns (r: Result<UserSettings, StoreError>)
      requires Valid()
      modifies this
      ensures Valid() && available == old(available)
      ensures !available ==> r == Err(Unavailable) && unchanged(this)
      ensures available ==>
                var existing := if userId in old(settings) then old(settings)[userId] else DefaultSettings(userId, now);
                && r == Ok(Merge(userId, existing, patch, now))
                && settings == old(settings)[userId := r.value]
                && trends == old(trends) && favorites == old(favorites)
    {
      var existing := GetUserSettings(userId, now);
      if existing.Err? {
        return Err(existing.error);
      }
      var updated := Merge(userId, existing.value, patch, now);
      settings := settings[userId := updated];
      r := Ok(updated);
    }
  }
}
