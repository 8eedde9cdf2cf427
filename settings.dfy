/** The settings page: the profile, password and notification forms, their
    change handlers, the submit handlers' loading flag and password check,
    and the profile defaults loaded from the stored user. */
module Settings {
  import opened Records

  datatype Profile = Profile(name: string, email: string, bio: string)

  datatype Passwords = Passwords(currentPassword: string, newPassword: string, confirmPassword: string)

  const InitialBio: string := "Project manager with 5 years of experience in software development."
  const InitialProfile: Profile := Profile("John Doe", "john@example.com", InitialBio)
  const EmptyPasswords: Passwords := Passwords("", "", "")

  /** The notification preferences, keyed by setting name. A map, because the
      toggle handler spreads the previous object and writes the named key,
      whether or not it was one of the six. */
  type Notifications = map<string, bool>

  const InitialNotifications: Notifications := map[
    "emailNotifications" := true, "taskAssigned" := true, "taskUpdated" := true,
    "taskCompleted" := true, "commentAdded" := true, "dailyDigest" := false
  ]

  /** The value the page reads for a setting: a missing key reads as unset. */
  function Flag(flags: Notifications, setting: string): bool {
    setting in flags && flags[setting]
  }

  /** `handleNotificationToggle`: the named setting takes the negation of its
      previous value; every other setting keeps its presence and value. */
  function Toggled(flags: Notifications, setting: string): (r: Notifications)
    ensures setting in r && Flag(r, setting) == !Flag(flags, setting)
    ensures forall k :: k != setting ==> (k in r <==> k in flags)
    ensures forall k :: k != setting && k in flags ==> k in r && r[k] == flags[k]
    ensures r.Keys == flags.Keys + {setting}
  {
    flags[setting := !Flag(flags, setting)]
  }

  /** Toggling a present setting twice restores the preferences exactly. For
      a name that was not present the second toggle leaves it stored as
      false, so the precondition is needed. */
  lemma ToggleTwice(flags: Notifications, setting: string)
    requires setting in flags
    ensures Toggled(Toggled(flags, setting), setting) == flags
  {
    var r := Toggled(Toggled(flags, setting), setting);
    assert r.Keys == flags.Keys;
    assert forall k :: k in r ==> r[k] == flags[k];
  }

  /** On the six switches the page shows, a toggle keeps the key set: exactly
      the named switch changes. */
  lemma ToggleShownSwitch(flags: Notifications, setting: string)
    requires flags.Keys == InitialNotifications.Keys && setting in flags
    ensures Toggled(flags, setting).Keys == InitialNotifications.Keys
    ensures forall k :: k in flags ==> (Toggled(flags, setting)[k] != flags[k] <==> k == setting)
  {
  }

  /** `handleProfileChange`: the input's name selects the field it replaces.
      The form only has inputs named after the three fields. */
  function WithProfileField(p: Profile, name: string, value: string): (r: Profile)
    ensures name == "name" ==> r.name == value && r.email == p.email && r.bio == p.bio
    ensures name == "email" ==> r.email == value && r.name == p.name && r.bio == p.bio
    ensures name == "bio" ==> r.bio == value && r.name == p.name && r.email == p.email
    ensures name !in {"name", "email", "bio"} ==> r == p
  {
    match name
    case "name" => p.(name := value)
    case "email" => p.(email := value)
    case "bio" => p.(bio := value)
    case _ => p
  }

  /** `handlePasswordChange`, likewise for the three password inputs. */
  function WithPasswordField(p: Passwords, name: string, value: string): (r: Passwords)
    ensures name == "currentPassword" ==> r == Passwords(value, p.newPassword, p.confirmPassword)
    ensures name == "newPassword" ==> r == Passwords(p.currentPassword, value, p.confirmPassword)
    ensures name == "confirmPassword" ==> r == Passwords(p.currentPassword, p.newPassword, value)
    ensures name !in {"currentPassword", "newPassword", "confirmPassword"} ==> r == p
  {
    match name
    case "currentPassword" => p.(currentPassword := value)
    case "newPassword" => p.(newPassword := value)
    case "confirmPassword" => p.(confirmPassword := value)
    case _ => p
  }

  /** The password check: the new password must equal its confirmation. */
  predicate PasswordsMatch(p: Passwords) {
    p.newPassword == p.confirmPassword
  }

  /** Typing the same text into the new-password and confirmation inputs
      passes the check, whatever was there before; typing different texts
      fails it. */
  lemma TypedPasswordsMatch(p: Passwords, a: string, b: string)
    ensures PasswordsMatch(WithPasswordField(WithPasswordField(p, "newPassword", a), "confirmPassword", b)) <==> a == b
  {
  }

  /** The profile after loading a stored user: the stored name, or "User"
      when it is empty; the stored address, or "user@example.com" when it is
      empty; the biography of the initial profile. */
  function LoadedProfile(stored: User): (r: Profile)
    ensures r.name != "" && r.email != "" && r.bio == InitialBio
    ensures stored.name != "" ==> r.name == stored.name
    ensures stored.name == "" ==> r.name == "User"
    ensures stored.email != "" ==> r.email == stored.email
    ensures stored.email == "" ==> r.email == "user@example.com"
  {
    Profile(if stored.name != "" then stored.name else "User",
            if stored.email != "" then stored.email else "user@example.com",
            InitialBio)
  }

  class SettingsPage {
    const store: Store
    var isLoading: bool
    var profileData: Profile
    var passwordData: Passwords
    var notificationSettings: Notifications

    constructor (store: Store)
      ensures this.store == store && !isLoading
      ensures profileData == InitialProfile && passwordData == EmptyPasswords
      ensures notificationSettings == InitialNotifications
    {
      this.store := store;
      isLoading := false;
      profileData := InitialProfile;
      passwordData := EmptyPasswords;
      notificationSettings := InitialNotifications;
    }

    /** The mount effect. A stored user replaces the profile by
        `LoadedProfile`; the biography is the one the first render held, which
        is the initial one. Returns false where `JSON.parse` throws. */
    method Mount() returns (ok: bool)
      modifies this
      ensures ok <==> !ReadUser(store.entries).Unparsable?
      ensures profileData == if ReadUser(store.entries).Parsed? then LoadedProfile(ReadUser(store.entries).value) else old(profileData)
      ensures isLoading == old(isLoading) && passwordData == old(passwordData)
      ensures notificationSettings == old(notificationSettings)
    {
      var userData := ReadUser(store.entries);
      match userData {
        case Absent =>
        case Unparsable =>
          return false;
        case Parsed(user) =>
          profileData := LoadedProfile(user);
      }
      return true;
    }

    method HandleProfileChange(name: string, value: string)
      modifies this
      ensures profileData == WithProfileField(old(profileData), name, value)
      ensures isLoading == old(isLoading) && passwordData == old(passwordData)
      ensures notificationSettings == old(notificationSettings)
    {
      profileData := WithProfileField(profileData, name, value);
    }

    method HandlePasswordChange(name: string, value: string)
      modifies this
      ensures passwordData == WithPasswordField(old(passwordData), name, value)
      ensures isLoading == old(isLoading) && profileData == old(profileData)
      ensures notificationSettings == old(notificationSettings)
    {
      passwordData := WithPasswordField(passwordData, name, value);
    }

    method HandleNotificationToggle(setting: string)
      modifies this
      ensures notificationSettings == Toggled(old(notificationSettings), setting)
      ensures isLoading == old(isLoading) && profileData == old(profileData)
      ensures passwordData == old(passwordData)
    {
      notificationSettings := Toggled(notificationSettings, setting);
    }

    /** `handleProfileSubmit`: loading is on for the duration of the simulated
        request and off at the end; the profile itself is kept. */
    method HandleProfileSubmit()
      modifies this
      ensures !isLoading
      ensures profileData == old(profileData) && passwordData == old(passwordData)
      ensures notificationSettings == old(notificationSettings)
    {
      isLoading := true;
      isLoading := false;
    }

    /** `handlePasswordSubmit`. A mismatch is rejected before loading starts
        and changes nothing; otherwise the three fields are cleared and
        loading ends. */
    method HandlePasswordSubmit() returns (accepted: bool)
      modifies this
      ensures accepted <==> PasswordsMatch(old(passwordData))
      ensures !accepted ==> passwordData == old(passwordData) && isLoading == old(isLoading)
      ensures accepted ==> passwordData == EmptyPasswords && !isLoading
      ensures profileData == old(profileData) && notificationSettings == old(notificationSettings)
    {
      if passwordData.newPassword != passwordData.confirmPassword {
        return false;
      }
      isLoading := true;
      passwordData := EmptyPasswords;
      isLoading := false;
      return true;
    }

    /** `handleNotificationSubmit`: as for the profile. */
    method HandleNotificationSubmit()
      modifies this
      ensures !isLoading
      ensures profileData == old(profileData) && passwordData == old(passwordData)
      ensures notificationSettings == old(notificationSettings)
    {
      isLoading := true;
      isLoading := false;
    }
  }
}
