/** The trend record of backend/src/db/trends.ts and the pure parts of its operations:
    building a new record, the partial-update expression, and the category list. */
module Trends {
  import opened Wrappers
  import opened Json
  import opened Strings

  datatype Trend = Trend(
    id: string,
    name: string,
    category: string,
    description: string,
    popularity: int,
    growth: int,
    createdAt: string,
    updatedAt: string)

  datatype CreateTrendInput = CreateTrendInput(
    name: string, category: string, description: string, popularity: int, growth: int)

  /** Each field absent (`undefined`) or supplied. */
  datatype UpdateTrendInput = UpdateTrendInput(
    name: Option<string>, category: Option<string>, description: Option<string>,
    popularity: Option<int>, growth: Option<int>)

  /** The input fields a stored trend carries. */
  function InputOf(t: Trend): CreateTrendInput {
    CreateTrendInput(t.name, t.category, t.description, t.popularity, t.growth)
  }

  /** The record `createTrend` stores: the input verbatim, the fresh id, both timestamps `now`. */
  function NewTrend(id: string, input: CreateTrendInput, now: string): (t: Trend)
    ensures InputOf(t) == input
    ensures t.id == id && t.createdAt == now && t.updatedAt == now
  {
    Trend(id, input.name, input.category, input.description, input.popularity, input.growth, now, now)
  }

  // ---------------------------------------------------------------------------
  // The update expression `SET updatedAt = :updatedAt, #name = :name, ...`
  // ---------------------------------------------------------------------------

  /** One `attribute = :value` clause of the update expression. */
  datatype Assignment =
    | SetUpdatedAt(at: string)
    | SetName(name: string)
    | SetCategory(category: string)
    | SetDescription(description: string)
    | SetPopularity(popularity: int)
    | SetGrowth(growth: int)

  function Apply(t: Trend, a: Assignment): Trend {
    match a
    case SetUpdatedAt(v) => t.(updatedAt := v)
    case SetName(v) => t.(name := v)
    case SetCategory(v) => t.(category := v)
    case SetDescription(v) => t.(description := v)
    case SetPopularity(v) => t.(popularity := v)
    case SetGrowth(v) => t.(growth := v)
  }

  /** The record after the store executes the clauses in order. */
  function ApplyAll(t: Trend, updates: seq<Assignment>): (r: Trend)
    ensures r.id == t.id && r.createdAt == t.createdAt
    ensures |updates| == 0 ==> r == t
    decreases |updates|
  {
    if |updates| == 0 then t
    else Apply(ApplyAll(t, updates[..|updates| - 1]), updates[|updates| - 1])
  }

  /** What an update means: each supplied field replaced, `updatedAt` refreshed,
      `id`, `createdAt` and the fields not supplied kept. */
  function PatchTrend(t: Trend, input: UpdateTrendInput, now: string): (r: Trend)
    ensures r.id == t.id && r.createdAt == t.createdAt && r.updatedAt == now
    ensures input.name.Some? ==> r.name == input.name.value
    ensures input.category.Some? ==> r.category == input.category.value
    ensures input.description.Some? ==> r.description == input.description.value
    ensures input.popularity.Some? ==> r.popularity == input.popularity.value
    ensures input.growth.Some? ==> r.growth == input.growth.value
  {
    t.(name := input.name.GetOr(t.name),
       category := input.category.GetOr(t.category),
       description := input.description.GetOr(t.description),
       popularity := input.popularity.GetOr(t.popularity),
       growth := input.growth.GetOr(t.growth),
       updatedAt := now)
  }

  /** The clauses `updates` do to any record what PatchTrend does with `input`. */
  ghost predicate Realizes(updates: seq<Assignment>, input: UpdateTrendInput, now: string) {
    forall t :: ApplyAll(t, updates) == PatchTrend(t, input, now)
  }

  /** Appending a clause that has the same effect as supplying one more field. */
  lemma {:induction false} PushClause(prev: seq<Assignment>, done: UpdateTrendInput, a: Assignment,
                                      next: UpdateTrendInput, now: string)
    requires Realizes(prev, done, now)
    requires forall t :: Apply(PatchTrend(t, done, now), a) == PatchTrend(t, next, now)
    ensures Realizes(prev + [a], next, now)
  {
    forall t ensures ApplyAll(t, prev + [a]) == PatchTrend(t, next, now) {
      assert (prev + [a])[..|prev|] == prev;
    }
  }

  /** The chain of `if (input.x !== undefined) push(...)` in `updateTrend`: the clauses
      it builds do to any record exactly what PatchTrend describes. */
  method BuildUpdateExpression(input: UpdateTrendInput, now: string) returns (updates: seq<Assignment>)
    ensures 1 <= |updates| <= 6 && updates[0] == SetUpdatedAt(now)
    ensures forall t :: ApplyAll(t, updates) == PatchTrend(t, input, now)
  {
    updates := [SetUpdatedAt(now)];
    ghost var done := UpdateTrendInput(None, None, None, None, None);
    assert Realizes(updates, done, now) by {
      forall t ensures ApplyAll(t, updates) == PatchTrend(t, done, now) {
        assert updates[..0] == [];
      }
    }
    if input.name.Some? {
      PushClause(updates, done, SetName(input.name.value), done.(name := input.name), now);
      updates := updates + [SetName(input.name.value)];
    }
    done := done.(name := input.name);
    if input.category.Some? {
      PushClause(updates, done, SetCategory(input.category.value), done.(category := input.category), now);
      updates := updates + [SetCategory(input.category.value)];
    }
    done := done.(category := input.category);
    if input.description.Some? {
      PushClause(updates, done, SetDescription(input.description.value), done.(description := input.description), now);
      updates := updates + [SetDescription(input.description.value)];
    }
    done := done.(description := input.description);
    if input.popularity.Some? {
      PushClause(updates, done, SetPopularity(input.popularity.value), done.(popularity := input.popularity), now);
      updates := updates + [SetPopularity(input.popularity.value)];
    }
    done := done.(popularity := input.popularity);
    if input.growth.Some? {
      PushClause(updates, done, SetGrowth(input.growth.value), done.(growth := input.growth), now);
      updates := updates + [SetGrowth(input.growth.value)];
    }
    done := done.(growth := input.growth);
    assert done == input;
  }

  /** An update changes exactly the supplied fields and `updatedAt`. */
  lemma PatchChangesOnlySupplied(t: Trend, input: UpdateTrendInput, now: string)
    ensures var r := PatchTrend(t, input, now);
            && r.id == t.id && r.createdAt == t.createdAt && r.updatedAt == now
            && (r.name != t.name ==> input.name == Some(r.name))
            && (r.category != t.category ==> input.category == Some(r.category))
            && (r.description != t.description ==> input.description == Some(r.description))
            && (r.popularity != t.popularity ==> input.popularity == Some(r.popularity))
            && (r.growth != t.growth ==> input.growth == Some(r.growth))
  {
  }

  /** An update that supplies nothing only refreshes `updatedAt`. */
  lemma EmptyPatchOnlyTouches(t: Trend, now: string)
    ensures PatchTrend(t, UpdateTrendInput(None, None, None, None, None), now) == t.(updatedAt := now)
  {
  }

  predicate PopularityInRange(p: int) {
    0 <= p <= 100
  }

  /** An update whose popularity, when supplied, is in range keeps a record's popularity in range. */
  lemma PatchKeepsPopularityInRange(t: Trend, input: UpdateTrendInput, now: string)
    requires PopularityInRange(t.popularity)
    requires input.popularity.Some? ==> PopularityInRange(input.popularity.value)
    ensures PopularityInRange(PatchTrend(t, input, now).popularity)
  {
  }

  // ---------------------------------------------------------------------------
  // getCategories: [...new Set(trends.map(t => t.category))].sort()
  // ---------------------------------------------------------------------------

  function CategoriesOf(ts: seq<Trend>): (cs: seq<string>)
    ensures |cs| == |ts| && forall i :: 0 <= i < |ts| ==> cs[i] == ts[i].category
  {
    seq(|ts|, i requires 0 <= i < |ts| => ts[i].category)
  }

  /** The categories in use, sorted, each once. */
  function Categories(ts: seq<Trend>): (cs: seq<string>)
    ensures StrictlySorted(cs)
    ensures forall c :: c in cs <==> exists i :: 0 <= i < |ts| && ts[i].category == c
  {
    var all := CategoriesOf(ts);
    var cs := SortedDistinct(all);
    assert forall c :: c in all <==> exists i :: 0 <= i < |ts| && ts[i].category == c by {
      forall c ensures c in all <==> exists i :: 0 <= i < |ts| && ts[i].category == c {
        if c in all {
          var i :| 0 <= i < |all| && all[i] == c;
          assert ts[i].category == c;
        }
      }
    }
    cs
  }

  // ---------------------------------------------------------------------------
  // JSON form
  // ---------------------------------------------------------------------------

  function TrendJson(t: Trend): JsonValue {
    JObj(map[
      "id" := JStr(t.id),
      "name" := JStr(t.name),
      "category" := JStr(t.category),
      "description" := JStr(t.description),
      "popularity" := JInt(t.popularity),
      "growth" := JInt(t.growth),
      "createdAt" := JStr(t.createdAt),
      "updatedAt" := JStr(t.updatedAt)])
  }

  /** Reads a trend back from its JSON form. */
  function TrendOf(j: JsonValue): Option<Trend> {
    if !j.JObj? then None
    else
      var f := j.fields;
      if && "id" in f && f["id"].JStr? && "name" in f && f["name"].JStr?
         && "category" in f && f["category"].JStr? && "description" in f && f["description"].JStr?
         && "popularity" in f && f["popularity"].JInt? && "growth" in f && f["growth"].JInt?
         && "createdAt" in f && f["createdAt"].JStr? && "updatedAt" in f && f["updatedAt"].JStr?
      then Some(Trend(f["id"].s, f["name"].s, f["category"].s, f["description"].s,
                      f["popularity"].n, f["growth"].n, f["createdAt"].s, f["updatedAt"].s))
      else None
  }

  /** The JSON form of a trend loses nothing. */
  lemma TrendJsonRoundTrip(t: Trend)
    ensures TrendOf(TrendJson(t)) == Some(t)
  {
  }

  function TrendsJson(ts: seq<Trend>): (j: JsonValue)
    ensures j.JArr? && |j.items| == |ts|
    ensures forall i :: 0 <= i < |ts| ==> j.items[i] == TrendJson(ts[i])
  {
    JArr(seq(|ts|, i requires 0 <= i < |ts| => TrendJson(ts[i])))
  }
}
