/** The favorite record of backend/src/db/favorites.ts, keyed by `(userId, trendId)`,
    and the JSON forms the handlers return. */
module Favorites {
  import opened Wrappers
  import opened Json
  import opened Trends

  datatype Favorite = Favorite(userId: string, trendId: string, createdAt: string)

  /** The composite key of the favorites table (hash `userId`, range `trendId`). */
  type FavoriteKey = (string, string)

  function KeyOf(f: Favorite): FavoriteKey {
    (f.userId, f.trendId)
  }

  function FavoriteFields(f: Favorite): map<string, JsonValue> {
    map["userId" := JStr(f.userId), "trendId" := JStr(f.trendId), "createdAt" := JStr(f.createdAt)]
  }

  function FavoriteJson(f: Favorite): JsonValue {
    JObj(FavoriteFields(f))
  }

  /** `{...fav, trend}`: the favorite's own fields plus its trend, `null` when the trend is gone. */
  function EnrichedFavoriteJson(f: Favorite, trend: Option<Trend>): (j: JsonValue)
    ensures j.JObj? && j.fields.Keys == {"userId", "trendId", "createdAt", "trend"}
    ensures j.fields["trend"] == (if trend.Some? then TrendJson(trend.value) else JNull)
    ensures forall k :: k in FavoriteFields(f) ==> j.fields[k] == FavoriteFields(f)[k]
  {
    JObj(FavoriteFields(f)["trend" := if trend.Some? then TrendJson(trend.value) else JNull])
  }

  /** A trend lookup in a table: `getTrendById` on an available store. */
  function Lookup(table: map<string, Trend>, id: string): (r: Option<Trend>)
    ensures r.Some? <==> id in table
    ensures r.Some? ==> r.value == table[id]
  {
    if id in table then Some(table[id]) else None
  }

  /** The `Promise.all` enrichment, one entry per favorite in the same order. */
  function EnrichAll(favs: seq<Favorite>, table: map<string, Trend>): (items: seq<JsonValue>)
    ensures |items| == |favs|
    ensures forall i :: 0 <= i < |favs| ==> items[i] == EnrichedFavoriteJson(favs[i], Lookup(table, favs[i].trendId))
  {
    seq(|favs|, i requires 0 <= i < |favs| => EnrichedFavoriteJson(favs[i], Lookup(table, favs[i].trendId)))
  }

  /** A favorite whose trend was deleted is listed with `trend: null`, not dropped. */
  lemma DanglingFavoriteListed(favs: seq<Favorite>, table: map<string, Trend>, i: int)
    requires 0 <= i < |favs| && favs[i].trendId !in table
    ensures EnrichAll(favs, table)[i].fields["trend"] == JNull
    ensures EnrichAll(favs, table)[i].fields["trendId"] == JStr(favs[i].trendId)
  {
  }
}
