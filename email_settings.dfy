/**
 * The e-mail settings screen (EmailSettings.jsx): the sender address and the
 * optional backup e-mail with its period. A save stores the trimmed sender
 * and either a fresh backup record (never sent) or none.
 */
module EmailSettingsScreen {
  import opened Wrappers
  import opened Records
  import opened JsText
  import opened Storage
  import opened ReleaseService

  const DefaultFrequency := 30

  /** The backup record a save writes for the trimmed address `email`: the address and period with `lastSent` cleared, or none for a blank address. */
  function BackupRecord(email: string, frequency: int): (b: Option<BackupEmail>)
    ensures email == "" <==> b.None?
    ensures b.Some? ==> b.value.email == email && b.value.frequency == frequency && b.value.lastSent == 0
  {
    if email != "" then Some(BackupEmail(email, frequency, 0)) else None
  }

  /** The settings record after a save of the trimmed sender and backup address: the two writers in handleSave's order. */
  function SavedSettings(s: Option<Settings>, fromEmail: string, backupEmail: string, frequency: int): Settings
  {
    WithBackupEmail(Some(WithResendFrom(s, fromEmail)), BackupRecord(backupEmail, frequency))
  }

  /**
   * A save reads back as entered: the sender is the trimmed address, the
   * backup record is the fresh one, and the salt and iteration count of the
   * login are untouched.
   */
  lemma SavedSettingsReadBack(s: Option<Settings>, fromEmail: string, backupEmail: string, frequency: int)
    requires fromEmail != ""
    ensures var r := SavedSettings(s, fromEmail, backupEmail, frequency);
      && ResendFromEmailOf(Some(r)) == fromEmail
      && BackupEmailOf(Some(r)) == BackupRecord(backupEmail, frequency)
      && (s.Some? ==> r.salt == s.value.salt && r.iterations == s.value.iterations)
  {
    ResendFromRoundTrip(s, fromEmail);
    SettingsWritersCommute(s, fromEmail, BackupRecord(backupEmail, frequency));
  }

  /** Because `lastSent` is cleared, the next backup check after a save with an address sends at once. */
  lemma SavedBackupIsDueImmediately(s: Option<Settings>, fromEmail: string, backupEmail: string, frequency: int, now: int)
    requires fromEmail != "" && backupEmail != ""
    ensures EvaluateBackup(BackupEmailOf(Some(SavedSettings(s, fromEmail, backupEmail, frequency))), now) == BackupDue
  {
    SavedSettingsReadBack(s, fromEmail, backupEmail, frequency);
  }

  /** A save with a blank backup address turns the backup off. */
  lemma BlankBackupDisables(s: Option<Settings>, fromEmail: string, frequency: int, now: int)
    requires fromEmail != ""
    ensures EvaluateBackup(BackupEmailOf(Some(SavedSettings(s, fromEmail, "", frequency))), now) == NoBackupConfigured
  {
    SavedSettingsReadBack(s, fromEmail, "", frequency);
  }

  class Screen {
    const store: Store
    var fromEmail: string
    var backupEmail: string
    var backupFrequency: int
    var loading: bool
    var saving: bool
    var notification: string

    /** The initial state: the default sender, no backup address, 30 days. */
    constructor (store: Store)
      ensures this.store == store
      ensures fromEmail == DefaultFromEmail && backupEmail == "" && backupFrequency == DefaultFrequency
      ensures loading && !saving && notification == ""
    {
      this.store := store;
      fromEmail, backupEmail, backupFrequency := DefaultFromEmail, "", DefaultFrequency;
      loading, saving, notification := true, false, "";
    }

    /**
     * loadSettings: the sender read (the default when none is stored); a
     * backup record fills the address and period, 30 days when falsy.
     */
    method LoadSettings()
      modifies this
      ensures fromEmail == ResendFromEmailOf(store.settings) && fromEmail != ""
      ensures BackupEmailOf(store.settings).Some? ==>
        backupEmail == BackupEmailOf(store.settings).value.email
        && backupFrequency == OrDefault(BackupEmailOf(store.settings).value.frequency, DefaultFrequency)
      ensures BackupEmailOf(store.settings).None? ==> backupEmail == old(backupEmail) && backupFrequency == old(backupFrequency)
      ensures !loading && saving == old(saving) && notification == old(notification)
    {
      var from := store.GetResendFromEmail();
      var backup := store.GetBackupEmailSettings();
      fromEmail := if from != "" then from else DefaultFromEmail;
      if backup.Some? {
        backupEmail := backup.value.email;
        backupFrequency := OrDefault(backup.value.frequency, DefaultFrequency);
      }
      loading := false;
    }

    /** handleSave's two writes, given the trimmed sender and backup address. */
    method WriteSettings(from: string, backup: string)
      requires store.Valid()
      modifies store
      ensures store.Valid()
      ensures store.pages == old(store.pages) && store.trustees == old(store.trustees) && store.conditions == old(store.conditions)
      ensures store.settings == Some(SavedSettings(old(store.settings), from, backup, backupFrequency))
    {
      store.SaveResendFromEmail(from);
      if backup != "" {
        store.SaveBackupEmailSettings(Some(BackupEmail(backup, backupFrequency, 0)));
      } else {
        store.SaveBackupEmailSettings(None);
      }
    }

    /**
     * handleSave: a blank sender is refused with nothing written; otherwise
     * the trimmed sender and then the backup record are written.
     */
    method HandleSave()
      requires store.Valid()
      modifies this, store
      ensures store.Valid()
      ensures store.pages == old(store.pages) && store.trustees == old(store.trustees) && store.conditions == old(store.conditions)
      ensures old(Trim(fromEmail)) == "" ==>
        store.settings == old(store.settings) && notification == "Please enter a from email address" && saving == old(saving)
      ensures old(Trim(fromEmail)) != "" ==>
        && store.settings == Some(SavedSettings(old(store.settings), old(Trim(fromEmail)), old(Trim(backupEmail)), backupFrequency))
        && notification == "Settings saved successfully" && !saving
      ensures fromEmail == old(fromEmail) && backupEmail == old(backupEmail) && backupFrequency == old(backupFrequency)
      ensures loading == old(loading)
    {
      var from := Trim(fromEmail);
      if from == "" {
        notification := "Please enter a from email address";
        return;
      }
      saving := true;
      WriteSettings(from, Trim(backupEmail));
      notification := "Settings saved successfully";
      saving := false;
    }
  }
}
