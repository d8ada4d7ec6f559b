/**
 * The user settings page: turning a stored `profiles` row into the profile the
 * form edits, the update payload written back on save, and the label shown
 * for an activity-log entry.
 */
module UserSettings {
  import opened Wrappers
  import opened JsStrings

  datatype NotificationSettings = NotificationSettings(email: bool, push: bool, sms: bool)

  /** The fully populated profile the form works on (`UserProfile`). */
  datatype UserProfile = UserProfile(
    fullName: string,
    email: string,
    phone: string,
    bio: string,
    profilePictureUrl: string,
    languagePreference: string,
    timezone: string,
    themeMode: string,
    notificationSettings: NotificationSettings,
    privacyLevel: string)

  /**
   * The untyped `notification_settings` column: null or undefined, a value that
   * is not an object, or an object whose three flags may each be absent.
   */
  datatype NotificationColumn =
    | Missing
    | NotAnObject
    | Object(email: Option<bool>, push: Option<bool>, sms: Option<bool>)

  /** A `profiles` row as read from the store; every column may be null. */
  datatype ProfileRow = ProfileRow(
    fullName: Option<string>,
    email: Option<string>,
    phone: Option<string>,
    bio: Option<string>,
    profilePictureUrl: Option<string>,
    languagePreference: Option<string>,
    timezone: Option<string>,
    themeMode: Option<string>,
    notificationSettings: NotificationColumn,
    privacyLevel: Option<string>)

  /** The columns the save writes; there is no `email` among them. */
  datatype ProfileUpdate = ProfileUpdate(
    fullName: string,
    phone: string,
    bio: string,
    profilePictureUrl: string,
    languagePreference: string,
    timezone: string,
    themeMode: string,
    notificationSettings: NotificationSettings,
    privacyLevel: string)

  const DefaultLanguage: string := "en"
  const DefaultTimezone: string := "UTC"
  const DefaultThemeMode: string := "system"
  const DefaultPrivacyLevel: string := "standard"
  const DefaultNotifications: NotificationSettings := NotificationSettings(true, true, false)


  /** `v || fallback` on a nullable string: null, undefined and "" are all falsy. */
  function OrElse(v: Option<string>, fallback: string): (r: string)
    ensures v.Some? && v.value != "" ==> r == v.value
    ensures v.None? || v.value == "" ==> r == fallback
  {
    if v.Some? && v.value != "" then v.value else fallback
  }

  /** `v ?? fallback` on a nullable flag: only null and undefined fall back. */
  function Coalesce(v: Option<bool>, fallback: bool): (r: bool)
    ensures v.Some? ==> r == v.value
    ensures v.None? ==> r == fallback
  {
    if v.Some? then v.value else fallback
  }

  /**
   * The `notification_settings` the page builds: the defaults unless the column
   * is an object, and then each flag read with `??` against its default.
   */
  function NormalizeNotifications(column: NotificationColumn): (n: NotificationSettings)
    ensures !column.Object? ==> n == DefaultNotifications
    ensures column.Object? ==>
      && n.email == Coalesce(column.email, true)
      && n.push == Coalesce(column.push, true)
      && n.sms == Coalesce(column.sms, false)
  {
    match column
    case Object(email, push, sms) =>
      NotificationSettings(
        Coalesce(email, DefaultNotifications.email),
        Coalesce(push, DefaultNotifications.push),
        Coalesce(sms, DefaultNotifications.sms))
    case _ => DefaultNotifications
  }

  /** The profile `fetchProfile` builds from a loaded row. */
  function Normalize(row: ProfileRow): (p: UserProfile)
    ensures p.languagePreference != "" && p.timezone != ""
    ensures p.themeMode != "" && p.privacyLevel != ""
  {
    UserProfile(
      OrElse(row.fullName, ""),
      OrElse(row.email, ""),
      OrElse(row.phone, ""),
      OrElse(row.bio, ""),
      OrElse(row.profilePictureUrl, ""),
      OrElse(row.languagePreference, DefaultLanguage),
      OrElse(row.timezone, DefaultTimezone),
      OrElse(row.themeMode, DefaultThemeMode),
      NormalizeNotifications(row.notificationSettings),
      OrElse(row.privacyLevel, DefaultPrivacyLevel))
  }

  /**
   * The profile the page starts with before anything is loaded. Its values are
   * exactly the fallbacks of `Normalize`: an all-null row loads as this profile.
   */
  function InitialProfile(): (p: UserProfile)
    ensures Normalize(ProfileRow(None, None, None, None, None, None, None, None, Missing, None)) == p
  {
    UserProfile(
      "", "", "", "", "",
      "en", "UTC", "system",
      NotificationSettings(true, true, false),
      "standard")
  }

  /** A nullable string column holds no text: null, undefined or "". */
  predicate Blank(v: Option<string>) {
    v.None? || v.value == ""
  }

  /**
   * Full name, email, phone, bio and picture URL fall back to "", so a null or
   * undefined column reads as "" and any stored text, "" included, is copied.
   */
  lemma NormalizeTextColumns(row: ProfileRow)
    ensures var p := Normalize(row);
      && (if row.fullName.Some? then p.fullName == row.fullName.value else p.fullName == "")
      && (if row.email.Some? then p.email == row.email.value else p.email == "")
      && (if row.phone.Some? then p.phone == row.phone.value else p.phone == "")
      && (if row.bio.Some? then p.bio == row.bio.value else p.bio == "")
      && (if row.profilePictureUrl.Some? then p.profilePictureUrl == row.profilePictureUrl.value
          else p.profilePictureUrl == "")
  {
  }

  /**
   * Language, timezone, theme and privacy level take their defaults when the
   * column is null, undefined or "", and keep any non-empty stored text.
   */
  lemma NormalizeDefaultedColumns(row: ProfileRow)
    ensures var p := Normalize(row);
      && p.languagePreference == (if Blank(row.languagePreference) then "en" else row.languagePreference.value)
      && p.timezone == (if Blank(row.timezone) then "UTC" else row.timezone.value)
      && p.themeMode == (if Blank(row.themeMode) then "system" else row.themeMode.value)
      && p.privacyLevel == (if Blank(row.privacyLevel) then "standard" else row.privacyLevel.value)
  {
  }

  /**
   * A null or non-object column gives email and push on, SMS off; inside an
   * object each absent flag takes that default on its own and a stored flag,
   * `false` included, is kept.
   */
  lemma NormalizeNotificationColumn(row: ProfileRow)
    ensures var n := Normalize(row).notificationSettings;
      match row.notificationSettings
      case Object(email, push, sms) =>
        && (if email.Some? then n.email == email.value else n.email)
        && (if push.Some? then n.push == push.value else n.push)
        && (if sms.Some? then n.sms == sms.value else !n.sms)
      case _ => n == NotificationSettings(true, true, false)
  {
  }

  /** Falsy-defaulting, as the text columns use, would have turned a stored `false` into `true`. */
  lemma StoredFalseIsKept(row: ProfileRow)
    requires row.notificationSettings == Object(Some(false), Some(false), Some(false))
    ensures Normalize(row).notificationSettings == NotificationSettings(false, false, false)
    ensures Normalize(row).notificationSettings != DefaultNotifications
  {
  }

  /**
   * Loading a row yields the page's initial profile exactly when the row holds
   * no text, only blanks or the defaults in the defaulted columns, and
   * notification settings that read as the defaults.
   */
  lemma NormalizeGivesInitialProfile(row: ProfileRow)
    ensures Normalize(row) == InitialProfile() <==>
      && Blank(row.fullName) && Blank(row.email) && Blank(row.phone)
      && Blank(row.bio) && Blank(row.profilePictureUrl)
      && (Blank(row.languagePreference) || row.languagePreference == Some("en"))
      && (Blank(row.timezone) || row.timezone == Some("UTC"))
      && (Blank(row.themeMode) || row.themeMode == Some("system"))
      && (Blank(row.privacyLevel) || row.privacyLevel == Some("standard"))
      && NormalizeNotifications(row.notificationSettings) == DefaultNotifications
  {
  }

  /**
   * The payload of `handleSaveProfile`: every editable field of the profile,
   * unchanged. `ProfileUpdate` has no email field, so the email is never sent.
   */
  function SavePayload(p: UserProfile): (u: ProfileUpdate)
    ensures u.fullName == p.fullName && u.phone == p.phone && u.bio == p.bio
    ensures u.profilePictureUrl == p.profilePictureUrl
    ensures u.languagePreference == p.languagePreference && u.timezone == p.timezone
    ensures u.themeMode == p.themeMode && u.privacyLevel == p.privacyLevel
    ensures u.notificationSettings == p.notificationSettings
  {
    ProfileUpdate(
      p.fullName, p.phone, p.bio, p.profilePictureUrl,
      p.languagePreference, p.timezone, p.themeMode,
      p.notificationSettings, p.privacyLevel)
  }

  /** The row as stored after a successful update: written columns replaced, `email` untouched. */
  function ApplyUpdate(row: ProfileRow, u: ProfileUpdate): (r: ProfileRow)
    ensures r.email == row.email
  {
    var n := u.notificationSettings;
    ProfileRow(
      Some(u.fullName), row.email, Some(u.phone), Some(u.bio), Some(u.profilePictureUrl),
      Some(u.languagePreference), Some(u.timezone), Some(u.themeMode),
      Object(Some(n.email), Some(n.push), Some(n.sms)),
      Some(u.privacyLevel))
  }

  /** The payload does not depend on the profile's email. */
  lemma SavePayloadIgnoresEmail(p: UserProfile, email: string)
    ensures SavePayload(p.(email := email)) == SavePayload(p)
  {
  }

  /**
   * Saving a profile and loading the row back returns that profile exactly when
   * the stored email reads as the profile's email and none of the four
   * defaulted fields is empty.
   */
  lemma SaveThenLoad(row: ProfileRow, p: UserProfile)
    ensures Normalize(ApplyUpdate(row, SavePayload(p))) == p <==>
      && Normalize(row).email == p.email
      && p.languagePreference != "" && p.timezone != ""
      && p.themeMode != "" && p.privacyLevel != ""
  {
  }

  /** Loading, saving unchanged and loading again gives the first loaded profile. */
  lemma LoadSaveLoadIsStable(row: ProfileRow)
    ensures Normalize(ApplyUpdate(row, SavePayload(Normalize(row)))) == Normalize(row)
  {
    SaveThenLoad(row, Normalize(row));
  }

  /** The heading shown for an activity-log entry: its action type with underscores as spaces, upper-cased. */
  function ActivityLabel(actionType: string): (r: string)
    ensures |r| == |actionType|
    ensures forall i :: 0 <= i < |r| ==> r[i] != '_' && !IsLowerAscii(r[i])
    ensures forall i :: 0 <= i < |r| ==> r[i] == if actionType[i] == '_' then ' ' else UpperChar(actionType[i])
  {
    Upper(ReplaceAll(actionType, '_', ' '))
  }

  /** The label of the entry written on save. */
  lemma ProfileUpdatedLabel()
    ensures ActivityLabel("profile_updated") == "PROFILE UPDATED"
  {
    var r := ActivityLabel("profile_updated");
    assert forall i :: 0 <= i < |r| ==> r[i] == "PROFILE UPDATED"[i];
  }

  /** A label is its own label. */
  lemma ActivityLabelIdempotent(actionType: string)
    ensures ActivityLabel(ActivityLabel(actionType)) == ActivityLabel(actionType)
  {
    var r := ActivityLabel(actionType);
    assert forall i :: 0 <= i < |r| ==> ActivityLabel(r)[i] == r[i];
  }

  /** Action types that differ only in letter case get the same label. */
  lemma ActivityLabelIgnoresCase(actionType: string)
    ensures ActivityLabel(Lower(actionType)) == ActivityLabel(actionType)
  {
    var r := ActivityLabel(actionType);
    assert forall i :: 0 <= i < |r| ==> ActivityLabel(Lower(actionType))[i] == r[i];
  }
}
