/**
 * The settings page: the profile and security forms, the notification
 * preferences, the password-visibility toggles and two-factor switch, and
 * the save handlers.
 */
module Settings {
  import opened MockData

  datatype ProfileForm = ProfileForm(name: string, email: string, phone: string, bio: string)

  datatype SecurityForm = SecurityForm(currentPassword: string, newPassword: string, confirmPassword: string)

  const BlankSecurity := SecurityForm("", "", "")

  const DefaultPhone := "+1 (555) 123-4567"
  const DefaultBio := "Passionate about financial management and technology."

  /** The six preference keys. */
  const NotificationKeys: set<string> :=
    {"emailNotifications", "pushNotifications", "smsNotifications", "transactionAlerts", "securityAlerts", "marketingEmails"}

  const DefaultNotifications: map<string, bool> := map[
    "emailNotifications" := true,
    "pushNotifications" := true,
    "smsNotifications" := false,
    "transactionAlerts" := true,
    "securityAlerts" := true,
    "marketingEmails" := false
  ]

  /** The profile form's starting values: the user's name and e-mail, or empty text when there is no user. */
  function InitialProfile(user: Option<User>): (f: ProfileForm)
    ensures user.Some? ==> f.name == user.value.name && f.email == user.value.email
    ensures user.None? ==> f.name == "" && f.email == ""
    ensures f.phone == DefaultPhone && f.bio == DefaultBio
  {
    ProfileForm(
      if user.Some? then user.value.name else "",
      if user.Some? then user.value.email else "",
      DefaultPhone, DefaultBio)
  }

  /** `handleSecuritySave` on the form: cleared when the two new passwords agree, kept as typed otherwise. */
  function SecurityAfterSave(form: SecurityForm): (r: SecurityForm)
    ensures form.newPassword != form.confirmPassword ==> r == form
    ensures form.newPassword == form.confirmPassword ==> r == BlankSecurity
  {
    if form.newPassword != form.confirmPassword then form else BlankSecurity
  }

  /** Saving a second time changes nothing more: the outcome after one save is kept by the next. */
  lemma SecuritySaveIdempotent(form: SecurityForm)
    ensures SecurityAfterSave(SecurityAfterSave(form)) == SecurityAfterSave(form)
  {
  }

  class SettingsPage {
    var profileForm: ProfileForm
    var securityForm: SecurityForm
    var showCurrent: bool
    var showNew: bool
    var showConfirm: bool
    var notifications: map<string, bool>
    var twoFactorEnabled: bool

    /** The preference map keeps exactly the six keys. */
    ghost predicate Valid()
      reads this
    {
      notifications.Keys == NotificationKeys
    }

    /** Mounting the page for the signed-in user (or for none). */
    constructor (user: Option<User>)
      ensures profileForm == InitialProfile(user)
      ensures securityForm == BlankSecurity
      ensures !showCurrent && !showNew && !showConfirm
      ensures notifications == DefaultNotifications && !twoFactorEnabled
      ensures Valid()
    {
      profileForm := InitialProfile(user);
      securityForm := BlankSecurity;
      showCurrent, showNew, showConfirm := false, false, false;
      notifications := DefaultNotifications;
      twoFactorEnabled := false;
    }

    /** `handleProfileSave` only shows the "Profile updated" notice, whose title it returns: no state changes. */
    method HandleProfileSave() returns (title: string)
      ensures title == "Profile updated"
    {
      title := "Profile updated";
    }

    /** `handleSecuritySave`: a mismatch keeps the form as typed; otherwise all three fields are cleared. */
    method HandleSecuritySave() returns (saved: bool)
      modifies this`securityForm
      ensures saved <==> old(securityForm).newPassword == old(securityForm).confirmPassword
      ensures !saved ==> securityForm == old(securityForm)
      ensures saved ==> securityForm == BlankSecurity
      ensures securityForm == SecurityAfterSave(old(securityForm))
    {
      if securityForm.newPassword != securityForm.confirmPassword {
        return false;
      }
      securityForm := SecurityForm("", "", "");
      return true;
    }

    /** `handleNotificationChange(key, value)`: that key takes the value, every other preference is kept. */
    method HandleNotificationChange(key: string, value: bool)
      modifies this`notifications
      ensures key in notifications && notifications[key] == value
      ensures forall k :: k in old(notifications) && k != key ==> k in notifications && notifications[k] == old(notifications)[k]
      ensures notifications.Keys == old(notifications.Keys) + {key}
      ensures key in NotificationKeys && old(Valid()) ==> Valid()
    {
      notifications := notifications[key := value];
    }

    /** The eye button of the current-password field flips its own flag only. */
    method ToggleShowCurrent()
      modifies this`showCurrent
      ensures showCurrent == !old(showCurrent)
    {
      showCurrent := !showCurrent;
    }

    /** The eye button of the new-password field. */
    method ToggleShowNew()
      modifies this`showNew
      ensures showNew == !old(showNew)
    {
      showNew := !showNew;
    }

    /** The eye button of the confirmation field. */
    method ToggleShowConfirm()
      modifies this`showConfirm
      ensures showConfirm == !old(showConfirm)
    {
      showConfirm := !showConfirm;
    }

    /** The two-factor switch hands its new position to `setTwoFactorEnabled`. */
    method SetTwoFactor(value: bool)
      modifies this`twoFactorEnabled
      ensures twoFactorEnabled == value
    {
      twoFactorEnabled := value;
    }

    /** The profile inputs: `{ ...profileForm, field: value }`. */
    method SetProfileName(value: string)
      modifies this`profileForm
      ensures profileForm == old(profileForm).(name := value)
    {
      profileForm := profileForm.(name := value);
    }

    method SetProfileEmail(value: string)
      modifies this`profileForm
      ensures profileForm == old(profileForm).(email := value)
    {
      profileForm := profileForm.(email := value);
    }

    method SetProfilePhone(value: string)
      modifies this`profileForm
      ensures profileForm == old(profileForm).(phone := value)
    {
      profileForm := profileForm.(phone := value);
    }

    method SetProfileBio(value: string)
      modifies this`profileForm
      ensures profileForm == old(profileForm).(bio := value)
    {
      profileForm := profileForm.(bio := value);
    }

    /** The security inputs: `{ ...securityForm, field: value }`. */
    method SetCurrentPassword(value: string)
      modifies this`securityForm
      ensures securityForm == old(securityForm).(currentPassword := value)
    {
      securityForm := securityForm.(currentPassword := value);
    }

    method SetNewPassword(value: string)
      modifies this`securityForm
      ensures securityForm == old(securityForm).(newPassword := value)
    {
      securityForm := securityForm.(newPassword := value);
    }

    method SetConfirmPassword(value: string)
      modifies this`securityForm
      ensures securityForm == old(securityForm).(confirmPassword := value)
    {
      securityForm := securityForm.(confirmPassword := value);
    }
  }

  /** Typing the same new password twice and saving leaves an empty security form. */
  method MatchingPasswordsClearForm(page: SettingsPage, current: string, password: string)
    modifies page
    ensures page.securityForm == BlankSecurity
  {
    page.SetCurrentPassword(current);
    page.SetNewPassword(password);
    page.SetConfirmPassword(password);
    var saved := page.HandleSecuritySave();
  }

  /** Switching any one preference on the fresh page keeps the six keys and the other five defaults. */
  method OneSwitchOnFreshPage(user: Option<User>, key: string, value: bool) returns (page: SettingsPage)
    requires key in NotificationKeys
    ensures page.Valid()
    ensures page.notifications == DefaultNotifications[key := value]
  {
    page := new SettingsPage(user);
    page.HandleNotificationChange(key, value);
  }
}
