/** The settings page: the profile form, the notification switches and the
    privacy choices. Theme and language are not part of it. */
module Settings {
  import opened Wrappers
  import opened Types
  import opened Flags
  import Auth

  /** The profile tab's form; the three password fields are on the form
      but never used. */
  datatype ProfileForm = ProfileForm(
    name: string,
    email: string,
    phone: string,
    currentPassword: string,
    newPassword: string,
    confirmPassword: string)

  /** `user?.name || ''` and so on: the form starts from the signed-in user,
      or blank when nobody is signed in. */
  function InitialProfile(user: Option<User>): (f: ProfileForm)
    ensures f.currentPassword == "" && f.newPassword == "" && f.confirmPassword == ""
    ensures user.None? ==> f.name == "" && f.email == "" && f.phone == ""
    ensures user.Some? ==> f.name == user.value.name && f.email == user.value.email && f.phone == user.value.phone
  {
    match user
    case None => ProfileForm("", "", "", "", "", "")
    case Some(u) => ProfileForm(u.name, u.email, u.phone, "", "", "")
  }

  /** `handleProfileUpdate`: sends the name, email and phone on the form to
      the session store, and nothing else. */
  function HandleProfileUpdate(user: Option<User>, f: ProfileForm): (r: Option<User>)
    ensures user.None? ==> r.None?
    ensures user.Some? ==> r == Some(user.value.(name := f.name, email := f.email, phone := f.phone))
  {
    Auth.UpdateUser(user, Auth.NoChange.(name := Some(f.name), email := Some(f.email), phone := Some(f.phone)))
  }

  /** Whatever is typed into the password fields makes no difference. */
  lemma PasswordsIgnored(user: Option<User>, f: ProfileForm, g: ProfileForm)
    requires f.name == g.name && f.email == g.email && f.phone == g.phone
    ensures HandleProfileUpdate(user, f) == HandleProfileUpdate(user, g)
  {
  }

  /** Saving the form as it was first shown changes nothing. */
  lemma SaveUntouchedForm(user: Option<User>)
    ensures HandleProfileUpdate(user, InitialProfile(user)) == user
  {
  }

  /** Saved while signed in, the form shown afresh from the session holds
      exactly the saved name, email and phone, with the password fields
      blank again. */
  lemma ProfileRoundTrip(user: Option<User>, f: ProfileForm)
    requires user.Some?
    ensures InitialProfile(HandleProfileUpdate(user, f))
         == f.(currentPassword := "", newPassword := "", confirmPassword := "")
  {
  }

  const InitialNotifications: map<string, bool> := map[
    "bookingReminders" := true,
    "sessionUpdates" := true,
    "paymentAlerts" := true,
    "promotions" := false,
    "weeklyReports" := true,
    "emergencyAlerts" := true]

  /** `handleNotificationChange(key)`: flips that switch alone. */
  function HandleNotificationChange(m: map<string, bool>, key: string): (r: map<string, bool>)
    ensures r.Keys == m.Keys + {key}
    ensures r[key] == !Get(m, key)
    ensures forall j :: j in m && j != key ==> r[j] == m[j]
  {
    Negate(m, key)
  }

  /** Flipping the same switch twice restores the settings. */
  lemma NotificationTwiceRestores(m: map<string, bool>, key: string)
    requires key in m
    ensures HandleNotificationChange(HandleNotificationChange(m, key), key) == m
  {
    NegateTwice(m, key);
  }

  /** A privacy setting is either a choice from a list or a switch. */
  datatype PrivacyValue = Choice(option: string) | Switch(on: bool)

  const InitialPrivacy: map<string, PrivacyValue> := map[
    "profileVisibility" := Choice("public"),
    "locationSharing" := Switch(true),
    "dataCollection" := Switch(true),
    "marketingEmails" := Switch(false)]

  /** `handlePrivacyChange(key, value)`: sets that entry alone. */
  function HandlePrivacyChange(m: map<string, PrivacyValue>, key: string, v: PrivacyValue): (r: map<string, PrivacyValue>)
    ensures r.Keys == m.Keys + {key}
    ensures r[key] == v
    ensures forall j :: j in m && j != key ==> r[j] == m[j]
  {
    Put(m, key, v)
  }

  /** Choosing the same value again changes nothing. */
  lemma PrivacyChangeIdempotent(m: map<string, PrivacyValue>, key: string, v: PrivacyValue)
    ensures HandlePrivacyChange(HandlePrivacyChange(m, key, v), key, v) == HandlePrivacyChange(m, key, v)
  {
    PutIdempotent(m, key, v);
  }

  /** Only the last choice for a setting counts. */
  lemma PrivacyLastChoiceWins(m: map<string, PrivacyValue>, key: string, v: PrivacyValue, w: PrivacyValue)
    ensures HandlePrivacyChange(HandlePrivacyChange(m, key, v), key, w) == HandlePrivacyChange(m, key, w)
  {
    PutOverrides(m, key, v, w);
  }

  /** Choosing a setting's current value changes nothing. */
  lemma PrivacyChangeToCurrent(m: map<string, PrivacyValue>, key: string)
    requires key in m
    ensures HandlePrivacyChange(m, key, m[key]) == m
  {
  }
}
