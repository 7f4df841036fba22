/** The notification settings: ten on/off flags flipped one at a time through `updateSetting`,
    the quiet-hours record and its three setters, and the reset to defaults. */
module NotificationSettingsScreen {

  datatype SettingKey =
    | MessagesEnabled | GroupsEnabled | CallsEnabled | SoundEnabled | VibrationEnabled
    | LedEnabled | PopupEnabled | InAppSounds | InAppVibration | InAppPreview

  const AllKeys: set<SettingKey> := {
    MessagesEnabled, GroupsEnabled, CallsEnabled, SoundEnabled, VibrationEnabled,
    LedEnabled, PopupEnabled, InAppSounds, InAppVibration, InAppPreview
  }

  /** The `notificationSettings` record, indexed by its keys as `prev[key]` does. */
  type Settings = map<SettingKey, bool>

  /** A record holds every key. */
  predicate Complete(s: Settings)
  {
    forall k :: k in s
  }

  datatype QuietHours = QuietHours(enabled: bool, startTime: string, endTime: string)

  /** Every flag on: the initial record and the one reset restores. */
  const DefaultSettings: Settings := map k | k in AllKeys :: true

  const DefaultQuietHours: QuietHours := QuietHours(false, "22:00", "07:00")

  lemma DefaultSettingsComplete()
    ensures Complete(DefaultSettings)
    ensures forall k :: DefaultSettings[k]
  {
    forall k ensures k in AllKeys {
      match k
      case MessagesEnabled =>
      case GroupsEnabled =>
      case CallsEnabled =>
      case SoundEnabled =>
      case VibrationEnabled =>
      case LedEnabled =>
      case PopupEnabled =>
      case InAppSounds =>
      case InAppVibration =>
      case InAppPreview =>
    }
  }

  /** `{ ...prev, [key]: !prev[key] }`: that key negated, every other key as it was. */
  function Flip(s: Settings, k: SettingKey): (r: Settings)
    requires Complete(s)
    ensures Complete(r)
    ensures r[k] == !s[k]
    ensures forall k' :: k' != k ==> r[k'] == s[k']
  {
    s[k := !s[k]]
  }

  /** Flipping the same key twice restores the record. */
  lemma FlipTwice(s: Settings, k: SettingKey)
    requires Complete(s)
    ensures Flip(Flip(s, k), k) == s
  {
  }

  /** Flips of two keys commute. */
  lemma FlipsCommute(s: Settings, j: SettingKey, k: SettingKey)
    requires Complete(s)
    ensures Flip(Flip(s, j), k) == Flip(Flip(s, k), j)
  {
  }

  /** The three lists of switches the screen renders. */
  const NotificationTypes: seq<SettingKey> := [MessagesEnabled, GroupsEnabled, CallsEnabled]
  const SoundAndVibration: seq<SettingKey> := [SoundEnabled, VibrationEnabled]
  const InAppSettings: seq<SettingKey> := [InAppSounds, InAppVibration, InAppPreview]

  /** A key some switch on the screen flips. */
  predicate HasSwitch(k: SettingKey)
  {
    k in NotificationTypes || k in SoundAndVibration || k in InAppSettings
  }

  /** Eight keys have a switch; the LED and pop-up flags have none. */
  lemma SwitchedKeys(k: SettingKey)
    ensures HasSwitch(k) <==> k != LedEnabled && k != PopupEnabled
  {
  }

  /** The record after pressing the switches for `ks` in order. */
  function FlipAll(s: Settings, ks: seq<SettingKey>): (r: Settings)
    requires Complete(s)
    ensures Complete(r)
    decreases |ks|
  {
    if ks == [] then s else FlipAll(Flip(s, ks[0]), ks[1..])
  }

  /** No sequence of switch presses changes the LED or pop-up flags. */
  lemma {:induction false} SwitchesKeepLedAndPopup(s: Settings, ks: seq<SettingKey>)
    requires Complete(s)
    requires forall i :: 0 <= i < |ks| ==> HasSwitch(ks[i])
    ensures FlipAll(s, ks)[LedEnabled] == s[LedEnabled]
    ensures FlipAll(s, ks)[PopupEnabled] == s[PopupEnabled]
    decreases |ks|
  {
    if ks != [] {
      SwitchesKeepLedAndPopup(Flip(s, ks[0]), ks[1..]);
    }
  }

  class Screen {
    var notificationSettings: Settings
    var quietHours: QuietHours

    ghost predicate Valid()
      reads this
    {
      Complete(notificationSettings)
    }

    constructor ()
      ensures Valid()
      ensures notificationSettings == DefaultSettings && quietHours == DefaultQuietHours
    {
      DefaultSettingsComplete();
      notificationSettings, quietHours := DefaultSettings, DefaultQuietHours;
    }

    /** `updateSetting(key)`. */
    method UpdateSetting(key: SettingKey)
      requires Valid()
      modifies this`notificationSettings
      ensures Valid()
      ensures notificationSettings == Flip(old(notificationSettings), key)
    {
      notificationSettings := Flip(notificationSettings, key);
    }

    /** The quiet-hours switch. */
    method SetQuietHoursEnabled(enabled: bool)
      modifies this`quietHours
      ensures quietHours == old(quietHours).(enabled := enabled)
    {
      quietHours := quietHours.(enabled := enabled);
    }

    /** The "From" input. */
    method SetStartTime(value: string)
      modifies this`quietHours
      ensures quietHours == old(quietHours).(startTime := value)
    {
      quietHours := quietHours.(startTime := value);
    }

    /** The "To" input. */
    method SetEndTime(value: string)
      modifies this`quietHours
      ensures quietHours == old(quietHours).(endTime := value)
    {
      quietHours := quietHours.(endTime := value);
    }

    /** "Reset to Defaults": both records back to their initial values. */
    method ResetToDefaults()
      modifies this`notificationSettings, this`quietHours
      ensures Valid()
      ensures notificationSettings == DefaultSettings && quietHours == DefaultQuietHours
      ensures forall k :: notificationSettings[k]
    {
      DefaultSettingsComplete();
      notificationSettings := map k | k in AllKeys :: true;
      quietHours := QuietHours(false, "22:00", "07:00");
    }
  }
}
