# Tech-trends backend: request logic

This project models the request logic of the backend of a small "tech trends" dashboard.
The backend is a set of Lambda handlers over three key-value tables: trends, favorites and
user settings. The model covers these parts:

- **Responses** (`response.dfy`): the uniform response shape. It has a status code, the JSON
  content type, three fixed CORS headers, and either the data or an `{error, ...details}` body.
- **Authentication** (`auth.dfy`):
  - bearer-token extraction from the `authorization`/`Authorization` header, split on
    single spaces with a case-sensitive `Bearer`;
  - role derivation from the Cognito groups;
  - the lazily created verifier handle (class `AuthContext`);
  - the result `verifyAuth` builds;
  - the guards `requireAuth`, `requireRole` and `requireAdmin`.

  Checking a token's signature and expiry is an oracle passed in by the caller.
- **Records and their pure logic**:
  - `trends.dfy`: the trend record, a new record, the update expression built clause by clause,
    and the sorted distinct category list;
  - `favorites.dfy`: the favorite record, keyed by `(userId, trendId)`, and the enrichment of a
    favorite with its trend;
  - `user_settings.dfy`: the settings record, the default record, and the `??` merge of an update.
- **The store** (`store.dfy`): class `Store` holds the three tables as maps. Its methods are the
  operations of the three data-access modules. Scans and queries visit keys in an unspecified
  order. `available` stands for the store being reachable: when it is false, every operation
  fails and changes nothing. `Valid()` says each record is stored under its own key, so there
  is at most one favorite per `(userId, trendId)`.
- **Handlers**:
  - `public_routes.dfy`: trend listing, lookup and categories;
  - `user_routes.dfy`: profile, favorites, settings and avatar upload URL;
  - `admin_routes.dfy`: create, update and delete a trend.

  Each handler validates its input before any store call, then runs its existence checks,
  then maps the outcome to a status code. For request bodies whose fields have their declared
  types, the admin handlers keep every stored popularity within 0..100, and the settings handler
  keeps every stored record within the validation limits.
- **Scenarios** (`scenarios.dfy`): what a client sees across repeated requests.

Some values come from outside the backend and are parameters here:

- the clock value `now`;
- the fresh trend id;
- the result of `JSON.parse`, which is `Parsed(body)` or `Malformed`;
- the token verifier;
- the S3 presigner;
- the value of the `USER_ICONS_BUCKET` environment variable, from which the bucket name is derived.

An absent request body parses as `{}`. A body field is `None` when it is absent.

## Model

| member | source | states |
|---|---|---|
| Responses.Success | backend/src/utils/response.ts:11-18 | The status is the given one (200 by default), the body is exactly the data, and the headers are the JSON content type plus the three CORS headers. |
| Responses.Error | backend/src/utils/response.ts:21-35 | The status is the given one (400 by default). The body's keys are `error` plus the details keys, every details entry is kept (so `details.error` overrides the message), and otherwise the message is the error text. The headers are the standard ones. |
| Responses.Unauthorized | backend/src/utils/response.ts:38-39 | Status 401 with body `{error: message}`. |
| Responses.Forbidden | backend/src/utils/response.ts:41-42 | Status 403 with body `{error: message}`. |
| Responses.NotFound | backend/src/utils/response.ts:44-45 | Status 404 with body `{error: message}`. |
| Responses.BadRequest | backend/src/utils/response.ts:47-48 | Status 400 with body `{error: message}`; there is no default message. |
| Responses.ServerError | backend/src/utils/response.ts:50-51 | Status 500 with body `{error: message}`. |
| Responses.MethodNotAllowed | backend/src/utils/response.ts:53-54 | Status 405 with body `{error: message}`. |
| Responses.DefaultMessages | backend/src/utils/response.ts:38-54 | The default messages are "Unauthorized", "Forbidden", "Not Found", "Internal Server Error" and "Method Not Allowed". The default status of `success` is 200 and of `error` is 400. |
| Auth.AuthorizationHeader | backend/src/middleware/auth.ts:42-43 | A non-empty `authorization` header wins. `Authorization` is used only when `authorization` is absent or empty and it is itself non-empty. The header is missing exactly when both are absent or empty. |
| Auth.ExtractToken | backend/src/middleware/auth.ts:41-49 | No header gives no token. An extracted token has no spaces, and the header is `Bearer`, one space, then the token. |
| Auth.ExtractTokenExactly | backend/src/middleware/auth.ts:41-49 | A token is extracted exactly when the header is `Bearer`, one space, and a token with no spaces. |
| Auth.OtherSpacingRejected | backend/src/middleware/auth.ts:45-46 | A header with any number of spaces other than one yields no token. |
| Strings.SplitCount | backend/src/middleware/auth.ts:45 | Splitting on a character gives one more piece than the character's occurrences. |
| Auth.DetermineRole | backend/src/middleware/auth.ts:52-55 | The role is admin iff the groups contain "admin"; it is never guest. |
| Auth.UserFromClaims | backend/src/middleware/auth.ts:84-91 | The groups default to none and the role is derived from them. The email falls back to the username, then to "". |
| Auth.AuthOutcome | backend/src/middleware/auth.ts:61-103 | A missing or empty token gives guest with no error. A missing configuration gives "Auth configuration missing". Authenticated holds iff a user is present, and then there is no error and the role is not guest. |
| Auth.VerifiedTokenAuthenticates | backend/src/middleware/auth.ts:80-103 | A token the verifier accepts authenticates the user built from its claims. One it rejects gives the thrown message, or "Token verification failed". |
| Auth.EmptyBearerIsGuest | backend/src/middleware/auth.ts:61-69 | The header "Bearer " yields the empty token, which is treated as no token. |
| Auth.ConfiguredHandle | backend/src/middleware/auth.ts:29-36 | A handle exists iff both the pool id and the client id are non-empty. It then carries them and the token use "access". |
| Auth.AuthContext.GetVerifier | backend/src/middleware/auth.ts:27-38 | The handle is set at most once: once set it is returned unchanged, and otherwise it becomes the configured handle. |
| Auth.AuthContext.VerifyAuth | backend/src/middleware/auth.ts:58-104 | The result is the outcome for the extracted token and the handle. The handle is only initialized when a token is present. |
| Auth.RequireAuth | backend/src/middleware/auth.ts:107-109 | Passing the guard guarantees a user is present. An unauthenticated result never passes. |
| Auth.RequireAuthIffAuthenticated | backend/src/middleware/auth.ts:107-109 | For a result built by `verifyAuth`, the guard passes exactly when the result is authenticated. |
| Auth.RequireRole | backend/src/middleware/auth.ts:112-115 | True iff the request is authenticated and its role is one of those required. It is false whenever `requireAuth` is. |
| Auth.RequireAdmin | backend/src/middleware/auth.ts:118-120 | An admin is always authenticated, and is exactly an authenticated user with the admin role. |
| Auth.AdminIffAdminGroup | backend/src/middleware/auth.ts:80-96 | A request is admin iff the verifier accepts its token and the claims list the "admin" group. |
| Trends.NewTrend | backend/src/db/trends.ts:79-97 | The created record copies the input verbatim, has the fresh id, and has `createdAt == updatedAt == now`. |
| Trends.ApplyAll | backend/src/db/trends.ts:137-148 | Executing the update clauses never changes the key `id` or `createdAt`. No clauses leave the record as it is. |
| Trends.PatchTrend | backend/src/db/trends.ts:108-148 | The patched record keeps `id` and `createdAt` and has `updatedAt` set to now. Every supplied field takes the supplied value. |
| Trends.BuildUpdateExpression | backend/src/db/trends.ts:108-135 | The clauses pushed by the chain of ifs transform any record exactly as the patch does. `updatedAt` comes first, and there are at most six clauses. |
| Trends.PatchChangesOnlySupplied | backend/src/db/trends.ts:108-148 | An update keeps `id` and `createdAt`, sets `updatedAt` to now, and changes a field only to a supplied value. |
| Trends.EmptyPatchOnlyTouches | backend/src/db/trends.ts:108-148 | An update that supplies nothing only refreshes `updatedAt`. |
| Trends.PatchKeepsPopularityInRange | backend/src/db/trends.ts:128-131 | A supplied popularity within 0..100 keeps the record's popularity within 0..100. |
| Trends.Categories | backend/src/db/trends.ts:163-167 | The categories are strictly sorted (so have no duplicates), and a category is listed iff some trend has it. |
| Strings.SortedDistinct | backend/src/db/trends.ts:166 | `[...new Set(s)].sort()` is strictly sorted and has exactly the elements of `s`. |
| Trends.TrendJsonRoundTrip | backend/src/db/trends.ts:12-22 | The JSON form of a trend can be read back to the same trend. |
| Favorites.EnrichedFavoriteJson | backend/src/routes/user.ts:32-37 | The entry has the favorite's own fields plus `trend`, which is `null` when the trend is missing. |
| Favorites.EnrichAll | backend/src/routes/user.ts:31-39 | There is one entry per favorite, in the same order, each holding its trend lookup. |
| Favorites.DanglingFavoriteListed | backend/src/routes/user.ts:31-39 | A favorite whose trend was deleted is listed with `trend: null`, not dropped. |
| UserSettings.DefaultSettings | backend/src/db/userSettings.ts:16-37 | The default record has the user id, theme "light" and notifications on; it has no display name, avatar or bio. |
| UserSettings.Merge | backend/src/db/userSettings.ts:52-60 | The merged record belongs to the given user and is stamped now. Every supplied field, including `false` and "", replaces the stored one. |
| UserSettings.MergeFieldwise | backend/src/db/userSettings.ts:50-60 | Each field is the supplied value if there is one, else the existing value. The user id is the argument and `updatedAt` is now. |
| UserSettings.SuppliedFalseKept | backend/src/db/userSettings.ts:58 | `notifications: false` is stored, not replaced by the existing value. |
| UserSettings.EmptyMergeOnlyTouches | backend/src/db/userSettings.ts:50-60 | An update that supplies nothing changes only `updatedAt`. |
| UserSettings.MergeIdempotent | backend/src/db/userSettings.ts:50-60 | Applying the same update twice equals applying it once. |
| UserSettings.SettingsJson | backend/src/db/userSettings.ts:5-13 | Absent optional fields are omitted from the JSON; theme and notifications are always present. |
| Db.Store.constructor | backend/src/db/client.ts:17-21 | A new store has empty tables. |
| Db.Store.GetAllTrends | backend/src/db/trends.ts:42-50 | A limit below 1 is rejected by the store. Every trend returned is stored and distinct. Without a limit, exactly the stored trends are returned; with one, `min(limit, n)` of them. |
| Db.Store.GetTrendsByCategory | backend/src/db/trends.ts:53-65 | Exactly the stored trends of the category are returned, each once. |
| Db.Store.GetTrendById | backend/src/db/trends.ts:68-76 | The result is null iff the id is absent, and otherwise the stored record. |
| Db.Store.CreateTrend | backend/src/db/trends.ts:79-97 | The new record is stored under its id and returned; the other tables are unchanged. An empty category, the key of the category index, is refused with no change. |
| Db.Store.UpdateTrend | backend/src/db/trends.ts:100-149 | An absent id gives null and no change. For a present id, setting the category to the empty string is refused by the store with no change. Otherwise the record is replaced by the patch, which is returned. |
| Db.Store.DeleteTrend | backend/src/db/trends.ts:152-160 | The result is always true. Afterwards the id is absent and every other record is unchanged, even if the id was already absent. |
| Db.Store.GetCategories | backend/src/db/trends.ts:163-167 | The result is strictly sorted, and a category is listed iff some stored trend has it. |
| Db.Store.GetFavoritesByUser | backend/src/db/favorites.ts:17-28 | Exactly the user's stored favorites are returned, each once. |
| Db.Store.GetFavorite | backend/src/db/favorites.ts:31-42 | The result is the record iff the pair is stored, and otherwise null. |
| Db.Store.AddFavorite | backend/src/db/favorites.ts:45-66 | An existing pair fails the condition and changes nothing. An absent pair is inserted as `{userId, trendId, createdAt: now}` and returned. |
| Db.Store.RemoveFavorite | backend/src/db/favorites.ts:69-80 | The result is always true. Afterwards the pair is absent and every other record is unchanged. |
| Db.Store.GetUserSettings | backend/src/db/userSettings.ts:22-40 | The stored record is returned if there is one, else the default record. Nothing is written. |
| Db.Store.UpdateUserSettings | backend/src/db/userSettings.ts:43-69 | The existing record (or the default) is merged with the update. The stored record then equals the returned one. |
| PublicRoutes.TrendsBody | backend/src/routes/public.ts:21-24 | `total` equals the number of trends listed, and the listed trends read back as the given ones. |
| PublicRoutes.GetTrends | backend/src/routes/public.ts:6-29 | A non-empty category is served by the category query with no limit. Otherwise all trends are scanned with the limit, 50 by default. Any store failure gives 500 "Failed to fetch trends". |
| PublicRoutes.GetTrendById | backend/src/routes/public.ts:32-48 | An absent id gives 404 "Trend not found", and otherwise 200 with the stored trend. A store failure gives 500. |
| PublicRoutes.GetCategories | backend/src/routes/public.ts:51-59 | The result is 200 with the sorted distinct categories in use, or 500 "Failed to fetch categories". |
| UserRoutes.GetProfile | backend/src/routes/user.ts:14-23 | The profile reads back as exactly the authenticated user: sub, email, role and groups. |
| UserRoutes.FavoritesBody | backend/src/routes/user.ts:41-44 | `total` equals the number of entries. |
| UserRoutes.GetFavorites | backend/src/routes/user.ts:26-49 | The result lists exactly the user's favorites, each enriched with its trend, or gives 500 "Failed to fetch favorites". |
| UserRoutes.ListedFavoritesAreOwn | backend/src/routes/user.ts:28 | Every listed favorite belongs to the caller. |
| UserRoutes.AddFavorite | backend/src/routes/user.ts:52-94 | The checks run in order: bad JSON 400, missing trendId 400, unknown trend 404, existing pair 400 "Already in favorites". Only then is the favorite inserted, with status 201. A store failure gives 500. Nothing is stored on any refusal. |
| UserRoutes.RemoveFavorite | backend/src/routes/user.ts:97-118 | An absent pair gives 404 "Favorite not found" and deletes nothing. Otherwise the pair is deleted and the result is 200 with the trendId. |
| UserRoutes.GetSettings | backend/src/routes/user.ts:121-129 | The result is 200 with the stored record (or the defaults), or 500 "Failed to fetch settings". |
| UserRoutes.SettingsRejection | backend/src/routes/user.ts:150-158 | A body is accepted iff its theme is absent, "", "light" or "dark", its displayName has at most 50 characters, and its bio at most 200. Otherwise the first failing check gives the message: a truthy theme other than light or dark gives the theme message. Failing that, a name over 50 characters gives the name message, and failing that, a bio over 200 gives the bio message. |
| UserRoutes.PatchOf | backend/src/routes/user.ts:161-167 | The patch passes on all five settings fields of the body unchanged, including the unvalidated `avatarUrl` and `notifications`. |
| UserRoutes.AcceptedUpdateWithinLimits | backend/src/routes/user.ts:150-167 | Merging an accepted body into a record within the limits stays within them. |
| UserRoutes.EmptyThemeStored | backend/src/routes/user.ts:150 | `{theme: ""}` passes validation and replaces the stored theme. |
| UserRoutes.UpdateSettings | backend/src/routes/user.ts:132-177 | A rejected body gives 400 before any write. An accepted one is merged into the stored record or the defaults, giving 200 "Settings updated". Every stored record stays within the limits. |
| UserRoutes.BucketName | backend/src/routes/user.ts:11 | The bucket is the configured name when it is non-empty. Otherwise, when it is unset or empty, it is "user-icons-bucket". |
| UserRoutes.RequestedContentType | backend/src/routes/user.ts:191 | The requested type is the body's `contentType` when that is non-empty, else "image/png". It is never empty. |
| UserRoutes.ExtensionOfAnySubtype | backend/src/routes/user.ts:200 | For any content type with a subtype, a subtype without `j` is its own extension and the subtype `jpeg` becomes `jpg`. |
| UserRoutes.ExtensionTable | backend/src/routes/user.ts:200 | Each allowed type has a subtype. image/png gives png, image/jpeg gives jpg, image/gif gives gif, and image/webp gives webp. |
| UserRoutes.AllowedExtension | backend/src/routes/user.ts:194-200 | Every allowed content type has a subtype, and its extension is one of the four. |
| UserRoutes.AvatarKey | backend/src/routes/user.ts:201 | The key lies under `avatars/`. It is the user's id, a dot, and the allowed type's extension. |
| UserRoutes.AvatarUrl | backend/src/routes/user.ts:211 | The URL is `https://`, the bucket, `.s3.amazonaws.com/`, then the whole key as the path. |
| UserRoutes.AvatarKeyInjective | backend/src/routes/user.ts:201 | Two users never share an avatar key, and one key determines the extension. |
| UserRoutes.GetUploadUrl | backend/src/routes/user.ts:180-222 | The content type defaults to image/png, and any type outside the four gives 400. The URL presigned for `avatars/<sub>.<ext>` is returned with the public avatar URL and 300 seconds. The bucket is the configured name or its default, and the same bucket is presigned and named in the avatar URL. A presigner failure gives 500. |
| AdminRoutes.CreateRejection | backend/src/routes/admin.ts:17-32 | A body is accepted iff it parses, name, category and description are non-empty, and a supplied popularity is within 0..100. |
| AdminRoutes.CreateInput | backend/src/routes/admin.ts:35-41 | The input copies the body. Popularity defaults to 50 and growth to 0, and the popularity is within 0..100. |
| AdminRoutes.ZeroPopularityKept | backend/src/routes/admin.ts:39 | A supplied popularity of 0 is kept, not replaced by the default. |
| AdminRoutes.CreateTrend | backend/src/routes/admin.ts:5-48 | A rejected body gives 400 with nothing stored. An accepted one is stored under the fresh id, read back by lookup, and returned with status 201. A store failure gives 500. Popularity stays within range. |
| AdminRoutes.UpdateRejection | backend/src/routes/admin.ts:63-72 | A body is accepted iff it parses and a supplied popularity is within 0..100. |
| AdminRoutes.UpdateInput | backend/src/routes/admin.ts:70-75 | The body is passed to the store field for field. A body that passed validation carries no popularity outside 0..100. |
| AdminRoutes.UpdateTrend | backend/src/routes/admin.ts:51-86 | A rejected body gives 400 before any store call. An unknown id gives 404 with no change. An empty category passes validation but the store refuses it, which gives 500 with no change. Otherwise the patched trend is stored and returned with 200. Popularity stays within range. |
| AdminRoutes.DeleteTrend | backend/src/routes/admin.ts:89-104 | An unknown id gives 404 with no delete. Otherwise the trend is removed (favorites untouched) and the result is 200 with the id. |
| Scenarios.AddFavoriteTwice | backend/src/routes/user.ts:76-89 | Adding the same favorite twice gives 201, then 400 "Already in favorites", storing one record. |
| Scenarios.RemoveFavoriteTwice | backend/src/routes/user.ts:103-113 | Removing a favorite twice gives 200, then 404. |
| Scenarios.CreateThenGet | backend/src/routes/admin.ts:34-43 | A created trend is served by the public lookup exactly as built. |
| Scenarios.DeleteThenGet | backend/src/routes/admin.ts:89-100 | After a delete, the lookup and a second delete both give 404 "Trend not found". |

## Left out

- The dispatcher that routes method and path to these handlers is not part of this model.
  `backend/src/index.ts` is an unrelated Express stub.
- `getFavoriteCount` (backend/src/db/favorites.ts:83-103) is not modelled: it is unused and relies on an index that does not exist.
- Token signature and expiry checking is an oracle (`Auth.Verifier`). JWT decoding and Cognito are not modelled.
- S3 presigning is an oracle (`UserRoutes.Presigner`) that returns a URL or fails.
- Logging to the console is not modelled.
- Store failures are a single availability flag. A handler's first store call is the one that fails.
  Failures that start midway through a handler are not modelled, nor is a concurrent writer that
  makes the conditional insert fail after the handler's own check. The corresponding `catch`
  branches after the first call are therefore unreachable in the model.
- Db.Store.GetAllTrends: the store's paging is not modelled. A Scan without paging returns at most
  1 MB per call; the model returns the whole table. With a limit, which trends are returned (the first
  ones in the store's order) is not modelled, only their number. Db.Store.GetCategories reads through
  the same unpaged Scan (backend/src/db/trends.ts:164), so its categories come from the whole table in the model.
- Db.Store.GetTrendsByCategory and Db.Store.GetFavoritesByUser: paging is not modelled. Each is a Query
  (backend/src/db/trends.ts:53-65, backend/src/db/favorites.ts:17-28), and a Query returns at most 1 MB
  per call, which the source does not follow up. The model returns every matching record, so for larger
  results it promises more than the source delivers.
- The order of Scan and Query results is left unspecified. The contracts speak of the set of records returned.
- The concurrency of `Promise.all` in `getFavorites` is modelled as a sequential map that preserves order.
- `parseInt` of a non-numeric `limit` (NaN) is not modelled. `limitParam` is the parsed number, or None when absent or empty.
- JSON serialization is not modelled. A body is a JSON value, and a parsed request body is taken to
  have its declared field types. A field that is `null`, a non-object body (which would throw outside
  the `try`), and extra fields are not modelled.
- AdminRoutes.UpdateTrend: a `null` field is not modelled. In the source a `null` popularity passes
  the check (backend/src/routes/admin.ts:70), because `null < 0` and `null > 100` are both false. It then
  counts as supplied (`null !== undefined`, backend/src/db/trends.ts:128), so `null` is stored and the
  popularity range no longer holds. The range invariant holds only for bodies whose fields have their declared types.
- Popularity and growth are integers. JavaScript numbers are floating point, which the model does not capture.
- String lengths and order use characters. JavaScript counts and compares UTF-16 code units, which
  differ only for characters outside the Basic Multilingual Plane.
- The clock, `crypto.randomUUID()` and environment variables are parameters. Where the source reads the
  clock twice in one operation, the model uses one `now`.
- Frontend, infrastructure and seed scripts are not part of this model.
