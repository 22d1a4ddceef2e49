/** The per-user settings record of backend/src/db/userSettings.ts: the default record
    synthesized for a user without one, and the merge an update performs. */
module UserSettings {
  import opened Wrappers
  import opened Json

  /** `theme` is a string: the handler lets an empty theme through (see UpdateSettings). */
  datatype UserSettings = UserSettings(
    userId: string,
    displayName: Option<string>,
    avatarUrl: Option<string>,
    bio: Option<string>,
    theme: string,
    notifications: bool,
    updatedAt: string)

  /** The fields an update may supply; None is `null` or `undefined`. */
  datatype SettingsPatch = SettingsPatch(
    displayName: Option<string>,
    avatarUrl: Option<string>,
    bio: Option<string>,
    theme: Option<string>,
    notifications: Option<bool>)

  /** DEFAULT_SETTINGS. */
  const DefaultTheme := "light"
  const DefaultNotifications := true

  /** The record returned for a user who has none: `{userId, ...DEFAULT_SETTINGS, updatedAt: now}`. */
  function DefaultSettings(userId: string, now: string): (s: UserSettings)
    ensures s.userId == userId && s.theme == "light" && s.notifications
    ensures s.displayName.None? && s.avatarUrl.None? && s.bio.None? && s.updatedAt == now
  {
    UserSettings(userId, None, None, None, DefaultTheme, DefaultNotifications, now)
  }

  /** The record `updateUserSettings` writes: each field `settings.x ?? existing.x`. */
  function Merge(userId: string, existing: UserSettings, patch: SettingsPatch, now: string): (r: UserSettings)
    ensures r.userId == userId && r.updatedAt == now
    ensures patch.displayName.Some? ==> r.displayName == patch.displayName
    ensures patch.avatarUrl.Some? ==> r.avatarUrl == patch.avatarUrl
    ensures patch.bio.Some? ==> r.bio == patch.bio
    ensures patch.theme.Some? ==> r.theme == patch.theme.value
    ensures patch.notifications.Some? ==> r.notifications == patch.notifications.value
  {
    UserSettings(
      userId,
      patch.displayName.OrElse(existing.displayName),
      patch.avatarUrl.OrElse(existing.avatarUrl),
      patch.bio.OrElse(existing.bio),
      patch.theme.GetOr(existing.theme),
      patch.notifications.GetOr(existing.notifications),
      now)
  }

  const EmptyPatch := SettingsPatch(None, None, None, None, None)

  /** Each merged field is the supplied value when there is one, else the existing value;
      a supplied `false` or "" is kept, since `??` only falls back on null/undefined. */
  lemma MergeFieldwise(userId: string, existing: UserSettings, patch: SettingsPatch, now: string)
    ensures var r := Merge(userId, existing, patch, now);
            && r.userId == userId && r.updatedAt == now
            && r.displayName == (if patch.displayName.Some? then patch.displayName else existing.displayName)
            && r.avatarUrl == (if patch.avatarUrl.Some? then patch.avatarUrl else existing.avatarUrl)
            && r.bio == (if patch.bio.Some? then patch.bio else existing.bio)
            && r.theme == (if patch.theme.Some? then patch.theme.value else existing.theme)
            && r.notifications == (if patch.notifications.Some? then patch.notifications.value else existing.notifications)
  {
  }

  /** `notifications: false` turns notifications off rather than falling back. */
  lemma SuppliedFalseKept(userId: string, existing: UserSettings, now: string)
    ensures !Merge(userId, existing, EmptyPatch.(notifications := Some(false)), now).notifications
  {
  }

  /** An update that supplies nothing changes only `updatedAt`. */
  lemma EmptyMergeOnlyTouches(existing: UserSettings, now: string)
    ensures Merge(existing.userId, existing, EmptyPatch, now) == existing.(updatedAt := now)
  {
  }

  /** Applying the same update twice is the same as applying it once. */
  lemma MergeIdempotent(userId: string, existing: UserSettings, patch: SettingsPatch, now: string)
    ensures Merge(userId, Merge(userId, existing, patch, now), patch, now) == Merge(userId, existing, patch, now)
  {
  }

  /** JSON form; absent optional fields are omitted, as `JSON.stringify` drops `undefined`. */
  function SettingsJson(s: UserSettings): (j: JsonValue)
    ensures j.JObj?
    ensures "displayName" in j.fields <==> s.displayName.Some?
    ensures "avatarUrl" in j.fields <==> s.avatarUrl.Some?
    ensures "bio" in j.fields <==> s.bio.Some?
    ensures "theme" in j.fields && "notifications" in j.fields
    ensures j.fields["theme"] == JStr(s.theme) && j.fields["notifications"] == JBool(s.notifications)
  {
    var base := map["userId" := JStr(s.userId), "theme" := JStr(s.theme),
                     "notifications" := JBool(s.notifications), "updatedAt" := JStr(s.updatedAt)];
    var withName := if s.displayName.Some? then base["displayName" := JStr(s.displayName.value)] else base;
    var withAvatar := if s.avatarUrl.Some? then withName["avatarUrl" := JStr(s.avatarUrl.value)] else withName;
    var withBio := if s.bio.Some? then withAvatar["bio" := JStr(s.bio.value)] else withAvatar;
    JObj(withBio)
  }
}
