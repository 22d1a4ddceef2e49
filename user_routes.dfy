/** The handlers of backend/src/routes/user.ts, all called with an authenticated user.
    A request body is given already parsed (`Malformed` when `JSON.parse` throws); an
    absent body parses as `{}`, i.e. every field absent. */
module UserRoutes {
  import opened Wrappers
  import opened Json
  import opened Strings
  import opened Responses
  import opened Auth
  import opened Trends
  import opened Favorites
  import opened UserSettings
  import opened Db

  // ---------------------------------------------------------------------------
  // getProfile
  // ---------------------------------------------------------------------------

  function RoleName(role: Role): string {
    match role
    case Guest => "guest"
    case User => "user"
    case Admin => "admin"
  }

  function RoleOf(name: string): Option<Role> {
    if name == "guest" then Some(Guest)
    else if name == "user" then Some(User)
    else if name == "admin" then Some(Admin)
    else None
  }

  /** `{id, email, role, groups}`. */
  function ProfileJson(user: AuthUser): JsonValue {
    JObj(map["id" := JStr(user.sub), "email" := JStr(user.email),
             "role" := JStr(RoleName(user.role)), "groups" := StrArray(user.groups)])
  }

  /** Reads a user back from a profile. */
  function ProfileOf(j: JsonValue): Option<AuthUser> {
    if !j.JObj? then None
    else
      var f := j.fields;
      if && "id" in f && f["id"].JStr? && "email" in f && f["email"].JStr?
         && "role" in f && f["role"].JStr? && RoleOf(f["role"].s).Some?
         && "groups" in f && f["groups"].JArr? && StringItems(f["groups"].items).Some?
      then Some(AuthUser(f["id"].s, f["email"].s, RoleOf(f["role"].s).value, StringItems(f["groups"].items).value))
      else None
  }

  /** `getProfile`: the profile describes the authenticated user completely. */
  function GetProfile(user: AuthUser): (r: ApiResponse)
    ensures r.statusCode == 200 && HasStandardHeaders(r)
    ensures r.body.JObj? && r.body.fields.Keys == {"profile"}
    ensures ProfileOf(r.body.fields["profile"]) == Some(user)
  {
    StringItemsOfStrArray(user.groups);
    assert RoleOf(RoleName(user.role)) == Some(user.role);
    Success(JObj(map["profile" := ProfileJson(user)]))
  }

  // ---------------------------------------------------------------------------
  // getFavorites
  // ---------------------------------------------------------------------------

  /** `{favorites, total}`: each favorite with its trend, and their number. */
  function FavoritesBody(favs: seq<Favorite>, trends: map<string, Trend>): (j: JsonValue)
    ensures j.JObj? && j.fields.Keys == {"favorites", "total"}
    ensures j.fields["favorites"].JArr? && j.fields["total"] == JInt(|j.fields["favorites"].items|)
  {
    JObj(map["favorites" := JArr(EnrichAll(favs, trends)), "total" := JInt(|favs|)])
  }

  /** `getFavorites`: the user's favorites, each with its current trend (`null` for a deleted one). */
  method GetFavorites(db: Store, user: AuthUser) returns (r: ApiResponse)
    requires db.Valid()
    ensures !db.available ==> r == ServerError("Failed to fetch favorites")
    ensures db.available ==>
              exists favs :: && ListsFavoritesOf(favs, db.favorites)
                             && FavoriteKeys(favs) == OfUser(db.favorites, user.sub)
                             && r == Success(FavoritesBody(favs, db.trends))
  {
    var favorites := db.GetFavoritesByUser(user.sub);
    if favorites.Err? {
      return ServerError("Failed to fetch favorites");
    }
    r := Success(FavoritesBody(favorites.value, db.trends));
  }

  /** Every favorite listed belongs to the user. */
  lemma ListedFavoritesAreOwn(favs: seq<Favorite>, table: map<FavoriteKey, Favorite>, userId: string, i: int)
    requires ListsFavoritesOf(favs, table) && FavoriteKeys(favs) == OfUser(table, userId)
    requires 0 <= i < |favs|
    ensures favs[i].userId == userId
  {
    assert KeyOf(favs[i]) in FavoriteKeys(favs);
  }

  // ---------------------------------------------------------------------------
  // addFavorite / removeFavorite
  // ---------------------------------------------------------------------------

  datatype FavoriteBody = FavoriteBody(trendId: Option<string>)

  function AddedBody(f: Favorite): JsonValue {
    JObj(map["message" := JStr("Added to favorites"), "favorite" := FavoriteJson(f)])
  }

  /** `addFavorite`: the checks run in order (body, trendId, trend exists, not yet a
      favorite); only a request passing all of them stores a favorite. */
  method AddFavorite(db: Store, body: Parsed<FavoriteBody>, user: AuthUser, now: string) returns (r: ApiResponse)
    requires db.Valid()
    modifies db
    ensures db.Valid()
    ensures body.Malformed? ==> r == BadRequest("Invalid JSON body") && unchanged(db)
    ensures body.Parsed? && !Truthy(body.body.trendId) ==> r == BadRequest("trendId is required") && unchanged(db)
    ensures body.Parsed? && Truthy(body.body.trendId) ==>
              var trendId := body.body.trendId.value;
              var favorite := Favorite(user.sub, trendId, now);
              if !old(db.available) then r == ServerError("Failed to add favorite") && unchanged(db)
              else if trendId !in old(db.trends) then r == NotFound("Trend not found") && unchanged(db)
              else if (user.sub, trendId) in old(db.favorites) then
                r == BadRequest("Already in favorites") && unchanged(db)
              else
                && r == Success(AddedBody(favorite), 201)
                && db.favorites == old(db.favorites)[(user.sub, trendId) := favorite]
                && db.trends == old(db.trends) && db.settings == old(db.settings) && db.available
  {
    if body.Malformed? {
      return BadRequest("Invalid JSON body");
    }
    var trendId := body.body.trendId;
    if !Truthy(trendId) {
      return BadRequest("trendId is required");
    }
    var trend := db.GetTrendById(trendId.value);
    if trend.Err? {
      return ServerError("Failed to add favorite");
    }
    if trend.value.None? {
      return NotFound("Trend not found");
    }
    var existing := db.GetFavorite(user.sub, trendId.value).value;
    if existing.Some? {
      return BadRequest("Already in favorites");
    }
    var favorite := db.AddFavorite(user.sub, trendId.value, now);
    r := Success(AddedBody(favorite.value), 201);
  }

  function RemovedBody(trendId: string): JsonValue {
    JObj(map["message" := JStr("Removed from favorites"), "trendId" := JStr(trendId)])
  }

  /** `removeFavorite`: a favorite that does not exist is a 404, not a silent success. */
  method RemoveFavorite(db: Store, user: AuthUser, trendId: string) returns (r: ApiResponse)
    requires db.Valid()
    modifies db
    ensures db.Valid()
    ensures !old(db.available) ==> r == ServerError("Failed to remove favorite") && unchanged(db)
    ensures old(db.available) && (user.sub, trendId) !in old(db.favorites) ==>
              r == NotFound("Favorite not found") && unchanged(db)
    ensures old(db.available) && (user.sub, trendId) in old(db.favorites) ==>
              && r == Success(RemovedBody(trendId))
              && db.favorites == old(db.favorites) - {(user.sub, trendId)}
              && db.trends == old(db.trends) && db.settings == old(db.settings) && db.available
  {
    var existing := db.GetFavorite(user.sub, trendId);
    if existing.Err? {
      return ServerError("Failed to remove favorite");
    }
    if existing.value.None? {
      return NotFound("Favorite not found");
    }
    var removed := db.RemoveFavorite(user.sub, trendId);
    r := Success(RemovedBody(trendId));
  }

  // ---------------------------------------------------------------------------
  // getSettings / updateSettings
  // ---------------------------------------------------------------------------

  /** `getSettings`: the stored record, or the defaults for a user who has none. */
  function GetSettings(db: Store, user: AuthUser, now: string): (r: ApiResponse)
    reads db
    ensures !db.available ==> r == ServerError("Failed to fetch settings")
    ensures db.available && user.sub in db.settings ==>
              r == Success(JObj(map["settings" := SettingsJson(db.settings[user.sub])]))
    ensures db.available && user.sub !in db.settings ==>
              r == Success(JObj(map["settings" := SettingsJson(DefaultSettings(user.sub, now))]))
  {
    match db.GetUserSettings(user.sub, now)
    case Err(_) => ServerError("Failed to fetch settings")
    case Ok(settings) => Success(JObj(map["settings" := SettingsJson(settings)]))
  }

  datatype SettingsBody = SettingsBody(
    displayName: Option<string>,
    avatarUrl: Option<string>,
    bio: Option<string>,
    notifications: Option<bool>,
    theme: Option<string>)

  const ThemeMessage := "theme must be 'light' or 'dark'"
  const DisplayNameMessage := "displayName must be 50 characters or less"
  const BioMessage := "bio must be 200 characters or less"

  /** The validation of `updateSettings`, first failure first. Each check is guarded by the
      field's truthiness, so an empty theme, name or bio is accepted. Lengths are counted
      in characters. */
  function SettingsRejection(b: SettingsBody): (e: Option<string>)
    ensures e.None? <==> && (b.theme.None? || b.theme.value in ["", "light", "dark"])
                         && (b.displayName.None? || |b.displayName.value| <= 50)
                         && (b.bio.None? || |b.bio.value| <= 200)
    ensures e.Some? ==> e.value in [ThemeMessage, DisplayNameMessage, BioMessage]
    ensures Truthy(b.theme) && b.theme.value !in ["light", "dark"] ==> e == Some(ThemeMessage)
    ensures (b.theme.None? || b.theme.value in ["", "light", "dark"]) &&
            Truthy(b.displayName) && |b.displayName.value| > 50 ==>
              e == Some(DisplayNameMessage)
    ensures (b.theme.None? || b.theme.value in ["", "light", "dark"]) &&
            (b.displayName.None? || |b.displayName.value| <= 50) &&
            Truthy(b.bio) && |b.bio.value| > 200 ==>
              e == Some(BioMessage)
  {
    if Truthy(b.theme) && b.theme.value !in ["light", "dark"] then Some(ThemeMessage)
    else if Truthy(b.displayName) && |b.displayName.value| > 50 then Some(DisplayNameMessage)
    else if Truthy(b.bio) && |b.bio.value| > 200 then Some(BioMessage)
    else None
  }

  /** The fields passed on to the store; any other field of the body is dropped. */
  function PatchOf(b: SettingsBody): (patch: SettingsPatch)
    ensures patch.displayName == b.displayName && patch.avatarUrl == b.avatarUrl && patch.bio == b.bio
    ensures patch.theme == b.theme && patch.notifications == b.notifications
  {
    SettingsPatch(b.displayName, b.avatarUrl, b.bio, b.theme, b.notifications)
  }

  /** What validation guarantees of a stored record. The empty theme is included because
      validation lets it through. */
  predicate WithinLimits(s: UserSettings) {
    && s.theme in ["", "light", "dark"]
    && (s.displayName.Some? ==> |s.displayName.value| <= 50)
    && (s.bio.Some? ==> |s.bio.value| <= 200)
  }

  ghost predicate AllWithinLimits(table: map<string, UserSettings>) {
    forall u :: u in table ==> WithinLimits(table[u])
  }

  /** Merging an accepted body into a record within the limits stays within them. */
  lemma AcceptedUpdateWithinLimits(userId: string, existing: UserSettings, b: SettingsBody, now: string)
    requires WithinLimits(existing) && SettingsRejection(b).None?
    ensures WithinLimits(Merge(userId, existing, PatchOf(b), now))
  {
  }

  /** `{theme: ""}` passes validation and is stored as is, replacing the theme. */
  lemma EmptyThemeStored(userId: string, existing: UserSettings, now: string)
    ensures var b := SettingsBody(None, None, None, None, Some(""));
            SettingsRejection(b).None? && Merge(userId, existing, PatchOf(b), now).theme == ""
  {
  }

  function UpdatedBody(s: UserSettings): JsonValue {
    JObj(map["settings" := SettingsJson(s), "message" := JStr("Settings updated")])
  }

  /** `updateSettings`: a rejected body changes nothing; an accepted one is merged into
      the stored record (or the defaults), and the limits hold of every stored record. */
  method UpdateSettings(db: Store, body: Parsed<SettingsBody>, user: AuthUser, now: string) returns (r: ApiResponse)
    requires db.Valid()
    modifies db
    ensures db.Valid()
    ensures AllWithinLimits(old(db.settings)) ==> AllWithinLimits(db.settings)
    ensures body.Malformed? ==> r == BadRequest("Invalid JSON body") && unchanged(db)
    ensures body.Parsed? && SettingsRejection(body.body).Some? ==>
              r == BadRequest(SettingsRejection(body.body).value) && unchanged(db)
    ensures body.Parsed? && SettingsRejection(body.body).None? && !old(db.available) ==>
              r == ServerError("Failed to update settings") && unchanged(db)
    ensures body.Parsed? && SettingsRejection(body.body).None? && old(db.available) ==>
              var existing := if user.sub in old(db.settings) then old(db.settings)[user.sub]
                              else DefaultSettings(user.sub, now);
              var merged := Merge(user.sub, existing, PatchOf(body.body), now);
              && r == Success(UpdatedBody(merged))
              && db.settings == old(db.settings)[user.sub := merged]
              && db.trends == old(db.trends) && db.favorites == old(db.favorites)
  {
    if body.Malformed? {
      return BadRequest("Invalid JSON body");
    }
    var rejection := SettingsRejection(body.body);
    if rejection.Some? {
      return BadRequest(rejection.value);
    }
    ghost var existing := if user.sub in db.settings then db.settings[user.sub] else DefaultSettings(user.sub, now);
    var settings := db.UpdateUserSettings(user.sub, PatchOf(body.body), now);
    if settings.Err? {
      return ServerError("Failed to update settings");
    }
    if AllWithinLimits(old(db.settings)) {
      AcceptedUpdateWithinLimits(user.sub, existing, body.body, now);
    }
    r := Success(UpdatedBody(settings.value));
  }

  // ---------------------------------------------------------------------------
  // getUploadUrl
  // ---------------------------------------------------------------------------

  datatype UploadBody = UploadBody(contentType: Option<string>)

  /** What is presigned: a PUT of `key` into `bucket` with the content type, for `expiresIn` seconds. */
  datatype PresignRequest = PresignRequest(bucket: string, key: string, contentType: string, expiresIn: int)

  /** The external presigner: the signed URL, or None when it throws. */
  type Presigner = PresignRequest -> Option<string>

  const DefaultBucket := "user-icons-bucket"
  const DefaultContentType := "image/png"
  const AllowedContentTypes: seq<string> := ["image/png", "image/jpeg", "image/gif", "image/webp"]
  const UploadExpiry := 300
  const ContentTypeMessage := "Invalid content type. Allowed: png, jpeg, gif, webp"

  /** USER_ICONS_BUCKET, falling back to the default when unset or empty. */
  function BucketName(env: Option<string>): (bucket: string)
    ensures bucket != ""
    ensures Truthy(env) ==> bucket == env.value
    ensures !Truthy(env) ==> bucket == DefaultBucket
  {
    if Truthy(env) then env.value else DefaultBucket
  }

  /** The content type asked for, `image/png` when absent or empty. */
  function RequestedContentType(b: UploadBody): (contentType: string)
    ensures contentType != ""
    ensures Truthy(b.contentType) ==> contentType == b.contentType.value
    ensures !Truthy(b.contentType) ==> contentType == DefaultContentType
  {
    if Truthy(b.contentType) then b.contentType.value else DefaultContentType
  }

  /** The file extension: the subtype after `/`, with its first `jpeg` replaced by `jpg`. */
  function Extension(contentType: string): string
    requires |Split(contentType, '/')| >= 2
  {
    ReplaceFirst(Split(contentType, '/')[1], "jpeg", "jpg")
  }

  /** The extension is the subtype itself when it has no `j`, and `jpg` for the subtype `jpeg`. */
  lemma ExtensionOfAnySubtype(contentType: string)
    requires |Split(contentType, '/')| >= 2
    ensures 'j' !in Split(contentType, '/')[1] ==> Extension(contentType) == Split(contentType, '/')[1]
    ensures Split(contentType, '/')[1] == "jpeg" ==> Extension(contentType) == "jpg"
  {
    SubtypeRenamed(Split(contentType, '/')[1]);
  }

  /** Replacing the first `jpeg` leaves a subtype without `j` alone and renames `jpeg` itself. */
  lemma SubtypeRenamed(subtype: string)
    ensures 'j' !in subtype ==> ReplaceFirst(subtype, "jpeg", "jpg") == subtype
    ensures subtype == "jpeg" ==> ReplaceFirst(subtype, "jpeg", "jpg") == "jpg"
  {
    if 'j' !in subtype {
      ReplaceFirstAbsent(subtype, "jpeg", "jpg");
    }
    if subtype == "jpeg" {
      ReplaceFirstWhole("jpeg", "jpg");
    }
  }

  lemma SplitContentType(subtype: string)
    requires '/' !in subtype
    ensures Split("image/" + subtype, '/') == ["image", subtype]
  {
    SplitInTwo("image/" + subtype, '/', "image", subtype);
    assert "image/" + subtype == "image" + ['/'] + subtype;
  }

  /** The extension of `image/<subtype>` is the subtype with its first `jpeg` replaced. */
  lemma SubtypeExtension(subtype: string)
    requires '/' !in subtype
    ensures |Split("image/" + subtype, '/')| >= 2
    ensures Extension("image/" + subtype) == ReplaceFirst(subtype, "jpeg", "jpg")
  {
    SplitContentType(subtype);
  }

  /** A subtype without a `j` is its own extension. */
  lemma ExtensionOfSubtype(subtype: string)
    requires '/' !in subtype && 'j' !in subtype
    ensures |Split("image/" + subtype, '/')| >= 2 && Extension("image/" + subtype) == subtype
  {
    SubtypeExtension(subtype);
    ReplaceFirstAbsent(subtype, "jpeg", "jpg");
  }

  lemma ExtensionPng()
    ensures |Split("image/png", '/')| >= 2 && Extension("image/png") == "png"
  {
    ExtensionOfSubtype("png");
    assert "image/" + "png" == "image/png";
  }

  lemma ExtensionJpeg()
    ensures |Split("image/jpeg", '/')| >= 2 && Extension("image/jpeg") == "jpg"
  {
    SubtypeExtension("jpeg");
    ReplaceFirstWhole("jpeg", "jpg");
    assert "image/" + "jpeg" == "image/jpeg";
  }

  lemma ExtensionGif()
    ensures |Split("image/gif", '/')| >= 2 && Extension("image/gif") == "gif"
  {
    ExtensionOfSubtype("gif");
    assert "image/" + "gif" == "image/gif";
  }

  lemma ExtensionWebp()
    ensures |Split("image/webp", '/')| >= 2 && Extension("image/webp") == "webp"
  {
    ExtensionOfSubtype("webp");
    assert "image/" + "webp" == "image/webp";
  }

  /** The extensions of the allowed types are png, jpg, gif and webp. */
  lemma ExtensionTable(contentType: string)
    requires contentType in AllowedContentTypes
    ensures |Split(contentType, '/')| >= 2
    ensures Extension(contentType) in ["png", "jpg", "gif", "webp"]
    ensures contentType == "image/png" ==> Extension(contentType) == "png"
    ensures contentType == "image/jpeg" ==> Extension(contentType) == "jpg"
    ensures contentType == "image/gif" ==> Extension(contentType) == "gif"
    ensures contentType == "image/webp" ==> Extension(contentType) == "webp"
  {
    assert contentType == "image/png" || contentType == "image/jpeg" || contentType == "image/gif" || contentType == "image/webp";
    ExtensionPng();
    ExtensionJpeg();
    ExtensionGif();
    ExtensionWebp();
  }

  /** The extension of an allowed type, which is one of four. */
  function AllowedExtension(contentType: string): (ext: string)
    requires contentType in AllowedContentTypes
    ensures ext in ["png", "jpg", "gif", "webp"]
    ensures |Split(contentType, '/')| >= 2 && ext == Extension(contentType)
  {
    ExtensionTable(contentType);
    Extension(contentType)
  }

  /** The object key: under `avatars/`, named by the user's id and the type's extension. */
  function AvatarKey(sub: string, contentType: string): (key: string)
    requires contentType in AllowedContentTypes
    ensures |key| > |sub| + 9 && key[..8] == "avatars/" && key[8..8 + |sub|] == sub && key[8 + |sub|] == '.'
    ensures key[9 + |sub|..] == AllowedExtension(contentType)
  {
    var ext := AllowedExtension(contentType);
    KeyLayout(sub, ext);
    "avatars/" + sub + "." + ext
  }

  lemma KeyLayout(sub: string, ext: string)
    ensures var key := "avatars/" + sub + "." + ext;
            && |key| == |sub| + |ext| + 9 && key[..8] == "avatars/" && key[8..8 + |sub|] == sub
            && key[8 + |sub|] == '.' && key[9 + |sub|..] == ext
  {
  }

  /** The public URL of `key` in `bucket`: the bucket's S3 host, then the key as the path. */
  function AvatarUrl(bucket: string, key: string): (url: string)
    ensures |url| == |bucket| + |key| + 26
    ensures url[..8] == "https://" && url[8..8 + |bucket|] == bucket
    ensures url[8 + |bucket|..|url| - |key|] == ".s3.amazonaws.com/" && url[|url| - |key|..] == key
  {
    "https://" + bucket + ".s3.amazonaws.com/" + key
  }

  /** Two users never share an avatar object, whatever the content types, and one user's
      key differs between types exactly when their extensions differ. */
  lemma AvatarKeyInjective(sub1: string, ct1: string, sub2: string, ct2: string)
    requires ct1 in AllowedContentTypes && ct2 in AllowedContentTypes
    requires AvatarKey(sub1, ct1) == AvatarKey(sub2, ct2)
    ensures sub1 == sub2 && AllowedExtension(ct1) == AllowedExtension(ct2)
  {
    KeyPartsDetermined(sub1, AllowedExtension(ct1), sub2, AllowedExtension(ct2));
  }

  /** A key `avatars/<sub>.<ext>` determines both parts when the extension is one of the four. */
  lemma KeyPartsDetermined(sub1: string, e1: string, sub2: string, e2: string)
    requires e1 in ["png", "jpg", "gif", "webp"] && e2 in ["png", "jpg", "gif", "webp"]
    requires "avatars/" + sub1 + "." + e1 == "avatars/" + sub2 + "." + e2
    ensures sub1 == sub2 && e1 == e2
  {
    var p1, p2 := "avatars/" + sub1 + ".", "avatars/" + sub2 + ".";
    var k := p1 + e1;
    assert k == p2 + e2;
    // the fourth character from the end is the '.' for a three-letter extension and the 'w' of "webp"
    FourthFromEnd(p1, e1);
    FourthFromEnd(p2, e2);
    assert |e1| == |e2|;
    assert |p1| == |p2|;
    assert e1 == k[|p1|..] == e2;
    assert p1 == k[..|p1|] == p2;
    assert sub1 == p1[8..|p1| - 1];
    assert sub2 == p2[8..|p2| - 1];
  }

  lemma FourthFromEnd(p: string, e: string)
    requires |p| > 0 && p[|p| - 1] == '.'
    requires e in ["png", "jpg", "gif", "webp"]
    ensures |e| == 3 || |e| == 4
    ensures var k := p + e; k[|k| - 4] == (if |e| == 3 then '.' else 'w')
  {
  }

  function UploadBodyJson(uploadUrl: string, avatarUrl: string): JsonValue {
    JObj(map["uploadUrl" := JStr(uploadUrl), "avatarUrl" := JStr(avatarUrl), "expiresIn" := JInt(UploadExpiry)])
  }

  /** `getUploadUrl`: only the four image types are accepted; the object is the user's
      avatar key in the configured bucket (`bucketEnv` is USER_ICONS_BUCKET) and the URL
      expires after 300 seconds. */
  function GetUploadUrl(body: Parsed<UploadBody>, user: AuthUser, bucketEnv: Option<string>, presign: Presigner): (r: ApiResponse)
    ensures body.Malformed? ==> r == BadRequest("Invalid JSON body")
    ensures body.Parsed? && RequestedContentType(body.body) !in AllowedContentTypes ==> r == BadRequest(ContentTypeMessage)
    ensures body.Parsed? && RequestedContentType(body.body) in AllowedContentTypes ==>
              var contentType := RequestedContentType(body.body);
              var bucket := BucketName(bucketEnv);
              var key := AvatarKey(user.sub, contentType);
              var request := PresignRequest(bucket, key, contentType, UploadExpiry);
              && bucket != ""
              && (presign(request).None? ==> r == ServerError("Failed to generate upload URL"))
              && (presign(request).Some? ==>
                    r == Success(UploadBodyJson(presign(request).value, AvatarUrl(bucket, key))))
  {
    if body.Malformed? then BadRequest("Invalid JSON body")
    else
      var contentType := RequestedContentType(body.body);
      if contentType !in AllowedContentTypes then BadRequest(ContentTypeMessage)
      else
        var bucket := BucketName(bucketEnv);
        var key := AvatarKey(user.sub, contentType);
        match presign(PresignRequest(bucket, key, contentType, UploadExpiry))
        case None => ServerError("Failed to generate upload URL")
        case Some(uploadUrl) => Success(UploadBodyJson(uploadUrl, AvatarUrl(bucket, key)))
  }
}
