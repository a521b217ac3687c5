# Legacy Organizer — a verified model of its release, storage and screen logic

Legacy Organizer is a browser application. It keeps a person's digital
accounts, financial assets, key contacts and end-of-life wishes as encrypted
pages in the browser's storage. Once the owner has been inactive long enough,
it e-mails everything to up to two trustees.

This project models, in Dafny, the logic that decides and formats those
releases, the storage layer it runs on, and the handlers of the screens that
write to that storage.

- **Storage** (`Storage`): the four localForage stores (pages, settings,
  trustees, release conditions). They are maps inside the class `Store`,
  together with the read and read-modify-write helpers of storage.js.
- **Release service** (`ReleaseService`, `Bundle`, `Mail`):
  - the guard chain of checkAndProcessReleaseConditions;
  - the release bundle that formatDataForEmail renders: groups in order of
    first appearance, camelCase labels, falsy values skipped, multi-line
    blocks, and the placeholder for a page that does not decrypt;
  - the release e-mail template and the loop over trustees;
  - the one-shot `released` latch;
  - the backup e-mail rule of checkAndSendBackup.
- **Screens**, modelled as classes whose fields are the component state:
  - release conditions (`ReleaseConditionsScreen`);
  - the release data modal (`ReleaseDataModal`);
  - backup export and import (`BackupFile`);
  - trustee management (`TrusteeManagement`);
  - category pages (`CategoryPage`);
  - login (`LoginScreen`);
  - e-mail settings (`EmailSettingsScreen`).
- **JavaScript string behaviour** the code relies on (`JsText`): `trim`,
  upper-casing, `repeat`, number printing, `split` and `join`. JavaScript
  objects are modelled as key/value sequences in insertion order (`Records`).

Several inputs are parameters of the model:

- Time (`now`, in milliseconds) and the locale date line.
- Fresh ids.
- Decryption: `Page -> Option<Entry>`, where None means it throws.
- Key derivation.
- The e-mail proxy's answers: a function `respond` of the message and of how
  many messages went before it.

Numeric record fields use 0 for JavaScript's 0, `null` and a missing
property. Every reader in the code only tests these fields for truthiness.

The code means to store a release latch: the "mark as released" step at
src/utils/releaseService.js:135-139 sets `released = true` and
`releaseDate = now` and calls `saveReleaseConditions`, and the guard at
src/utils/releaseService.js:87-90 reads `released` back. But the import list
at line 4 does not include `saveReleaseConditions`, so the call throws after
the e-mails have gone out and the latch is never written (see Findings). The
model follows the code as written in
`ReleaseService.CheckAndProcessReleaseAsWritten`; the rest of the model uses
the intended behaviour, with the latch stored.

## Model

| member | source | states |
|---|---|---|
| Records.OrDefault | src/utils/releaseService.js:81 | the fallback on a number field: `x` when it is truthy, `d` when it is 0, null or absent |
| Records.Get | src/components/CategoryPage.jsx:366 | reading a property the object does not have gives undefined (Null) |
| Records.Set | src/components/CategoryPage.jsx:258-263 | after `o[k] = v`, `k` reads `v` and every other key reads as before; an existing key keeps its position, a new key goes last; distinct keys stay distinct |
| Records.Assign | src/components/CategoryPage.jsx:232-236 | a spread keeps keys distinct and keeps the object's first key first |
| Records.AssignGet | src/components/CategoryPage.jsx:232-236 | after `{...o, ...src}`, a key of `src` reads as in `src` and any other key reads as in `o` |
| JsText.Trim | src/components/EmailSettings.jsx:46-58 | `trim()` removes exactly a leading and a trailing whitespace run: the result is the middle of the input and has no whitespace at either end |
| JsText.TrimIdempotent | src/components/EmailSettings.jsx:53 | trimming an already trimmed address changes nothing |
| JsText.TrimNonBlank | src/utils/releaseService.js:108-127 | a text with no whitespace at either end is its own trim |
| JsText.TrimPadded | src/utils/releaseService.js:108-127 | trimming removes exactly the whitespace padding around such a text |
| JsText.UpperChar | src/utils/releaseService.js:35 | each lower-case ASCII letter maps to its own capital (code point minus 32); everything else is unchanged |
| JsText.ToUpper | src/utils/releaseService.js:35 | `toUpperCase()` keeps the length and upper-cases each character |
| JsText.Repeat | src/utils/releaseService.js:28 | `'='.repeat(n)` has length `n` and only that character |
| JsText.NatToString | src/utils/releaseService.js:84 | a number prints as decimal digits with no leading zero |
| JsText.NatToStringRoundTrip | src/utils/releaseService.js:113 | the printed digits read back as the number printed |
| JsText.IntToString | src/components/Backup.jsx:99 | an integer prints as its decimal form: digits that read back as the value, after a minus sign when it is negative |
| JsText.IndexOf | src/utils/releaseService.js:186 | the position of the first separator, or the length when there is none |
| JsText.Split | src/utils/releaseService.js:186 | `split` always yields at least one piece |
| JsText.SplitJoin | src/components/ReleaseDataModal.jsx:141 | splitting a joined list on its separator gives the list back when no piece contains the separator |
| Storage.Iterate | src/utils/storage.js:57-63 | `iterate` pushes every stored value exactly once, each under a distinct key of the store |
| Storage.EnumerationCovers | src/utils/storage.js:119-125 | an iteration misses no stored key |
| Storage.ResendFromEmailOf | src/utils/storage.js:183-188 | the stored sender when it is present and non-empty, otherwise the onboarding sender; never empty |
| Storage.BackupEmailOf | src/utils/storage.js:204-207 | the stored backup record, or null when there are no settings |
| Storage.WithResendFrom | src/utils/storage.js:194-198 | the written record changes only the sender; salt, iterations and backup are kept; with no settings it is a one-field record |
| Storage.WithBackupEmail | src/utils/storage.js:213-217 | the written record changes only the backup field; with no settings it is a one-field record |
| Storage.ResendFromRoundTrip | src/utils/storage.js:183-198 | a saved sender reads back as saved, or as the default when it was empty |
| Storage.SettingsWritersCommute | src/utils/storage.js:194-217 | the two settings writers commute and neither changes what the other reads |
| Storage.Touched | src/utils/storage.js:163-169 | updateLastActivity's record: nothing without a record, otherwise only `lastActivity` changes and the latch fields are kept |
| Storage.Store.constructor | src/utils/storage.js:8-26 | four empty stores |
| Storage.Store.SavePage | src/utils/storage.js:36-51 | exactly `{id, category, encryptedBlob, iv, lastModified}` is stored under `pageId`, replacing any record there; nothing else changes |
| Storage.Store.GetAllPages | src/utils/storage.js:57-63 | every stored page exactly once |
| Storage.Store.GetPageById | src/utils/storage.js:70-72 | the page under that key, or null |
| Storage.Store.DeletePage | src/utils/storage.js:78-80 | no record with that key remains and every other record is unchanged |
| Storage.Store.GetSettings | src/utils/storage.js:86-88 | the stored settings record |
| Storage.Store.SaveSettings | src/utils/storage.js:94-96 | the settings record is replaced whole |
| Storage.Store.HasInitialized | src/utils/storage.js:102-105 | true exactly when a settings record exists |
| Storage.Store.GetTrustees | src/utils/storage.js:119-125 | every stored trustee exactly once |
| Storage.Store.SaveTrustee | src/utils/storage.js:131-133 | an existing id is replaced and the count is unchanged; a new id adds one |
| Storage.Store.DeleteTrustee | src/utils/storage.js:139-141 | no trustee with that id remains; the others are unchanged |
| Storage.Store.GetReleaseConditions | src/utils/storage.js:147-149 | the stored conditions record |
| Storage.Store.SaveReleaseConditions | src/utils/storage.js:155-157 | the conditions record is replaced whole |
| Storage.Store.UpdateLastActivity | src/utils/storage.js:163-169 | the record becomes `Touched`: only `lastActivity` changes, and nothing is written without a record |
| Storage.Store.GetResendFromEmail | src/utils/storage.js:183-188 | the stored sender or the default |
| Storage.Store.SaveResendFromEmail | src/utils/storage.js:194-198 | only the sender field of the settings changes |
| Storage.Store.GetBackupEmailSettings | src/utils/storage.js:204-207 | the backup record, or null |
| Storage.Store.SaveBackupEmailSettings | src/utils/storage.js:213-217 | only the backup field of the settings changes |
| Mail.Mailer.constructor | src/utils/emailService.js:6 | a mailer for the proxy's answers, with no message sent yet |
| Mail.Mailer.Post | src/utils/emailService.js:19-44 | the message is posted once and the proxy's answer to it is returned and recorded |
| Mail.Mailer.SendEmail | src/utils/emailService.js:16-45 | one message from the configured sender (or the default) to `to` with that subject and text |
| Mail.Mailer.SendBackupEmail | src/utils/emailService.js:54-82 | one backup message from the configured sender carrying the payload and the file name |
| Bundle.Categories | src/utils/releaseService.js:19-25 | the categories of the pages, each once, and no other |
| Bundle.Group | src/utils/releaseService.js:19-25 | a group holds only pages of its category |
| Bundle.CategoriesInFirstAppearanceOrder | src/utils/releaseService.js:19-33 | sections follow first appearance: for categories a before b, every page of b comes after some page of a |
| Bundle.GroupOfAbsent | src/utils/releaseService.js:19-25 | a category with no page has no group |
| Bundle.GroupsPartitionPages | src/utils/releaseService.js:19-25 | the groups together are a permutation of the pages: each page is in exactly one group |
| Bundle.GroupingStep | src/utils/releaseService.js:20-25 | one loop step: a new category is added last, and the page is appended to its group |
| Bundle.GroupByCategory | src/utils/releaseService.js:19-25 | `pagesByCategory` has the categories in first-appearance order, each holding its pages in input order |
| Bundle.SpaceBeforeCapitals | src/utils/releaseService.js:45 | inserting spaces never shortens the key and keeps its last character |
| Bundle.UnspacedSpaced | src/utils/releaseService.js:45 | removing the inserted spaces gives a space-free key back |
| Bundle.LabelOfCamelCase | src/utils/releaseService.js:44-47 | for a camelCase key, the label is the key with its first letter capitalised and a space before each later capital |
| Bundle.CamelCapitalized | src/utils/releaseService.js:44-47 | for a camelCase key, capitalising the spaced key leaves no whitespace at either end for `trim` to remove |
| Bundle.TruthyFields | src/utils/releaseService.js:42-43 | only truthy properties are kept |
| Bundle.FalsyFieldsOmitted | src/utils/releaseService.js:42-55 | falsy properties contribute nothing to an entry's text |
| Bundle.FormatEntry | src/utils/releaseService.js:41-55 | the property loop builds `Label:\nvalue\n\n` for multi-line strings and `Label: value\n` otherwise, skipping falsy values |
| Bundle.FailedPageIsPlaceholder | src/utils/releaseService.js:38-61 | a page that does not decrypt yields exactly `[Error decrypting entry]\n\n`, and the pages around it render as if it were absent |
| Bundle.FormatPages | src/utils/releaseService.js:38-62 | each decrypted page is followed by 30 dashes; a failed page adds the placeholder and the loop goes on |
| Bundle.RenderFrame | src/utils/releaseService.js:27-67 | the bundle always starts with the title and the banner and ends with `END OF INFORMATION RELEASE\n` |
| Bundle.RenderBundle | src/utils/releaseService.js:18-68 | the nested append loops produce exactly `Render`: banner, one section per category in first-appearance order, footer |
| ReleaseService.DaysSinceAtLeast | src/utils/releaseService.js:80-85 | floor days reach `n` exactly when `n` days of milliseconds have passed |
| ReleaseService.DaysSinceMonotonic | src/utils/releaseService.js:80 | elapsed days never decrease as time goes on |
| ReleaseService.Evaluate | src/utils/releaseService.js:73-101 | the release is due iff the record exists, `lastActivity` is truthy, the inclusive threshold (60 days by default) has passed, it is not released, and there is at least one trustee and at least `requiredTrustees` (1 by default) |
| ReleaseService.ThresholdIsInclusive | src/utils/releaseService.js:80-85 | due exactly N days after the last activity, and not one millisecond earlier |
| ReleaseService.MarkReleased | src/utils/releaseService.js:137-138 | the latch sets `released` and `releaseDate = now` and keeps the other fields |
| ReleaseService.ReleaseIsLatched | src/utils/releaseService.js:87-139 | once the latch is written, no later check releases again, whatever the trustees |
| ReleaseService.UnlatchedReleaseRepeats | src/utils/releaseService.js:87-139 | without the latch, every later check with the same trustees is due again |
| ReleaseService.TouchIsNotMonotonic | src/utils/storage.js:163-169 | updateLastActivity accepts any timestamp: touching a record that is not yet due with an earlier, non-null timestamp makes the release due at the same moment |
| ReleaseService.ReleaseEmailTrimmed | src/utils/releaseService.js:108-127 | `.trim()` removes exactly the template literal's leading newline and trailing indentation |
| ReleaseService.TrimTemplatePadding | src/utils/releaseService.js:108-127 | trimming the template padding around a text that starts and ends with non-whitespace gives that text |
| ReleaseService.ComposeReleaseEmail | src/utils/releaseService.js:107-127 | the e-mail body is the trimmed template around the days, threshold, date line and bundle |
| ReleaseService.Notifications | src/utils/releaseService.js:130-134 | one e-mail per trustee, in listed order, each with the same sender, subject and body |
| ReleaseService.NotifyTrustees | src/utils/releaseService.js:129-134 | `sendEmail` is called exactly once per trustee in order; `results` holds each trustee's name and the proxy's answer, in the same order; a failure does not stop the loop |
| ReleaseService.Decide | src/utils/releaseService.js:75-101 | the guards run in the source's order and give `Evaluate`; the trustees are listed when the release is due |
| ReleaseService.EvaluateAndNotify | src/utils/releaseService.js:73-134 | when not due nothing is sent; when due, each trustee gets the release e-mail with the bundle of all pages; the store is only read |
| ReleaseService.SendRelease | src/utils/releaseService.js:104-134 | the bundle of the pages under the automatic-release notice, in the trimmed template, goes to each trustee |
| ReleaseService.CheckAndProcessReleaseConditions | src/utils/releaseService.js:73-151 | when not due: the reason, no e-mail, no write. When due: `listed` is a listing of every stored trustee and `pagesListed` of every stored page (getTrustees, getAllPages); each listed trustee gets one e-mail with the bundle of those pages, the results follow the proxy's answers in order, and `released`/`releaseDate` are stored whatever the send results |
| ReleaseService.CheckAndProcessReleaseAsWritten | src/utils/releaseService.js:73-151 | as written: when due, every stored trustee (a listing of the store) gets one e-mail with the bundle of every stored page, then the missing `saveReleaseConditions` throws; the result is an error and nothing is stored |
| ReleaseService.RepeatedReleaseAsWritten | src/utils/releaseService.js:136-150 | as written, a second check after a release is due again and returns the same error; the mailer receives two full batches, each one e-mail to every stored trustee with the bundle of every stored page (`ReleaseBatch` over listings of the store), so twice the trustee count |
| ReleaseService.RepeatedRelease | src/utils/releaseService.js:136-150 | with the latch, the mailer receives exactly one `ReleaseBatch` (every stored trustee, the bundle of every stored page) from the first check; the second check sends nothing and reports "Information already released" |
| ReleaseService.EvaluateBackup | src/utils/releaseService.js:158-173 | a backup is due iff an address is set and `lastSent` is absent or at least `frequency` (30 by default) floor days ago |
| ReleaseService.BackupFilename | src/utils/releaseService.js:186 | `legacy-backup-` + the part before the first `T` + `.legacy` |
| ReleaseService.BackupFilenameIsDate | src/utils/releaseService.js:186 | the file is named after the date part of the ISO timestamp |
| ReleaseService.BackupNotRepeatedWithinFrequency | src/utils/releaseService.js:163-195 | after a successful send, no backup is due until the period has passed |
| ReleaseService.BackupDueAfterFrequency | src/utils/releaseService.js:163-195 | ... and one is due once it has |
| ReleaseService.CheckAndSendBackup | src/utils/releaseService.js:156-206 | when due, one message carrying all pages and the settings; `lastSent = now` is stored only when the send succeeded; nothing else is written |
| ReleaseConditionsScreen.DaysSinceActivity | src/components/ReleaseConditions.jsx:104-108 | 0 when there is no last activity, otherwise the floor of the elapsed days |
| ReleaseConditionsScreen.DaysUntilRelease | src/components/ReleaseConditions.jsx:110-111 | never negative; 0 exactly when the threshold is reached; otherwise the days still to go |
| ReleaseConditionsScreen.CountdownMatchesService | src/components/ReleaseConditions.jsx:104-111 | the countdown reaches 0 exactly when the service's inactivity guard passes |
| ReleaseConditionsScreen.SaveAfterReleaseReArms | src/components/ReleaseConditions.jsx:52-81 | a save after "release now" drops the latch, so the service is due again with enough trustees |
| ReleaseConditionsScreen.Screen.constructor | src/components/ReleaseConditions.jsx:10-15 | 60 days, 1 trustee, no last activity |
| ReleaseConditionsScreen.Screen.LoadConditions | src/components/ReleaseConditions.jsx:22-45 | a stored record fills the screen with 60/1/now as fallbacks; with none, `{60, 1, now}` is written |
| ReleaseConditionsScreen.Screen.HandleSave | src/components/ReleaseConditions.jsx:52-64 | writes exactly the three settings; `released` and `releaseDate` are not carried over |
| ReleaseConditionsScreen.Screen.HandleReleaseNow | src/components/ReleaseConditions.jsx:66-90 | once confirmed, writes `released = true` and `releaseDate = now` with no inactivity, trustee or latch check |
| ReleaseConditionsScreen.Screen.HandleUpdateActivity | src/components/ReleaseConditions.jsx:92-102 | the stored record and the screen both take `now` |
| ReleaseConditionsScreen.Screen.SetInactivityDays | src/components/ReleaseConditions.jsx:179-186 | the slider keeps the threshold within 7..365 |
| ReleaseConditionsScreen.Screen.SetRequiredTrustees | src/components/ReleaseConditions.jsx:203-210 | the slider keeps the required trustees within 1..2 |
| ReleaseDataModal.BundleMatchesAutomaticRelease | src/components/ReleaseDataModal.jsx:41-88 | after the banner, the screen's bundle is the automatic release's, character for character |
| ReleaseDataModal.Emails | src/components/ReleaseDataModal.jsx:141 | the trustees' addresses in listed order |
| ReleaseDataModal.RecipientsListEveryTrustee | src/components/ReleaseDataModal.jsx:141 | the comma-joined recipient list loses no trustee and adds none |
| ReleaseDataModal.Modal.constructor | src/components/ReleaseDataModal.jsx:13-15 | loading, with no data and no trustees |
| ReleaseDataModal.Modal.LoadAndFormatData | src/components/ReleaseDataModal.jsx:21-97 | the trustees are every stored trustee, and the text is the bundle of every stored page under the modal's notice |
| ReleaseDataModal.Modal.HandleEmail | src/components/ReleaseDataModal.jsx:120-142 | nothing without trustees; otherwise a draft to all trustee addresses with the fixed subject and body |
| BackupFile.ExportDoc | src/components/Backup.jsx:27-34 | version "1.0", the pages read and the trustee list |
| BackupFile.Imported | src/components/Backup.jsx:76-82 | an imported page keeps its fields, with `lastModified` defaulting to now |
| BackupFile.PageWrites | src/components/Backup.jsx:75-83 | one page write per page, in order |
| BackupFile.TrusteeWrites | src/components/Backup.jsx:86-90 | trustees are written only when the field is an array, one per trustee, in order |
| BackupFile.ConditionWrites | src/components/Backup.jsx:93-95 | the conditions are written only when present |
| BackupFile.ImportWrites | src/components/Backup.jsx:71-95 | the settings first, then the pages, the trustees and the conditions |
| BackupFile.WritesNeverDelete | src/components/Backup.jsx:71-95 | whatever prefix of the writes ran, no page, trustee, settings or conditions record is removed |
| BackupFile.ImportCanExceedTwoTrustees | src/components/Backup.jsx:85-90 | two stored trustees plus one imported make three |
| BackupFile.ImportedPages | src/components/Backup.jsx:75-83 | the pages savePage receives, in order |
| BackupFile.PageWritesEffect | src/components/Backup.jsx:75-83 | the page loop lays the imported pages over what was stored |
| BackupFile.TrusteeWritesEffect | src/components/Backup.jsx:86-90 | the trustee loop lays the trustees over what was stored |
| BackupFile.PageWritesRestore | src/components/Backup.jsx:75-83 | importing an export's pages puts the exported pages back |
| BackupFile.TrusteeWritesRestore | src/components/Backup.jsx:86-90 | importing an export's trustees puts the exported trustees back |
| BackupFile.ExportImportRestores | src/components/Backup.jsx:17-111 | export, then import into an empty store, restores the store exactly, provided every page has a timestamp and settings exist |
| BackupFile.ConditionWritesStore | src/components/Backup.jsx:93-95 | the conditions write stores the record, when there is one |
| BackupFile.BackupScreen.constructor | src/components/Backup.jsx:14-15 | not loading, no message |
| BackupFile.BackupScreen.HandleExport | src/components/Backup.jsx:17-54 | the document lists every stored page and trustee, with the settings and conditions read |
| BackupFile.BackupScreen.ImportPages | src/components/Backup.jsx:75-83 | the page loop up to the first write that throws |
| BackupFile.BackupScreen.ImportTrustees | src/components/Backup.jsx:86-90 | the trustee loop up to the first write that throws |
| BackupFile.BackupScreen.WriteSettingsAndPages | src/components/Backup.jsx:71-83 | the settings write and the page loop, stopping at the write that throws |
| BackupFile.BackupScreen.WriteTrusteesAndConditions | src/components/Backup.jsx:85-95 | the trustee loop and the conditions write, stopping at the write that throws |
| BackupFile.BackupScreen.WriteTrustees | src/components/Backup.jsx:85-90 | the trustee loop, run only for an array |
| BackupFile.BackupScreen.WriteConditions | src/components/Backup.jsx:92-95 | the conditions write, only when present |
| BackupFile.BackupScreen.WriteDocument | src/components/Backup.jsx:71-95 | the store holds exactly the writes before the one that throws; completion means all were done |
| BackupFile.BackupScreen.HandleImport | src/components/Backup.jsx:56-111 | a file without pages or settings is rejected before any write; a throw partway keeps the earlier writes and shows the error |
| CategoryPage.CategoryFields | src/components/CategoryPage.jsx:18-207 | an unknown category id has no fields |
| CategoryPage.EntryOf | src/components/CategoryPage.jsx:232-236 | an entry starts with `id` and its `lastModified` is always the stored one |
| CategoryPage.EntryFields | src/components/CategoryPage.jsx:232-236 | every other field reads as decrypted; `id` is the page's unless the decrypted record has its own |
| CategoryPage.EntryIdIsPageId | src/components/CategoryPage.jsx:232-236 | an entry carries its page's id, so an edit saves over the same page |
| CategoryPage.Loaded | src/components/CategoryPage.jsx:218-244 | no more entries than pages |
| CategoryPage.BadPageIsSkipped | src/components/CategoryPage.jsx:224-244 | a page that does not decrypt is dropped, and the others are still shown |
| CategoryPage.LoadedIsSound | src/components/CategoryPage.jsx:218-244 | every entry shown comes from a decryptable page of this category |
| CategoryPage.LoadedIsComplete | src/components/CategoryPage.jsx:218-244 | every decryptable page of this category is shown |
| CategoryPage.Shown | src/components/CategoryPage.jsx:365-378 | a card shows only fields of the category whose value is truthy |
| CategoryPage.ShownIsComplete | src/components/CategoryPage.jsx:365-378 | no field with a truthy value is left off the card |
| CategoryPage.UnknownCategoryShowsNothing | src/components/CategoryPage.jsx:207 | a card of an unknown category shows nothing |
| CategoryPage.Screen.constructor | src/components/CategoryPage.jsx:200-205 | no entries, loading, an empty form, nothing edited |
| CategoryPage.Screen.LoadEntries | src/components/CategoryPage.jsx:215-251 | the entries are the category's decryptable pages, in listing order |
| CategoryPage.Screen.HandleInputChange | src/components/CategoryPage.jsx:258-263 | one form field takes the input value; every other field keeps its value |
| CategoryPage.Screen.HandleSave | src/components/CategoryPage.jsx:265-287 | saved under `editingId` when editing, otherwise under a fresh id, stamped now; the form is reset and the list reloaded, ending with `loading` false |
| CategoryPage.Screen.HandleEdit | src/components/CategoryPage.jsx:289-293 | the form takes the whole entry and the entry's id is being edited |
| CategoryPage.Screen.HandleDelete | src/components/CategoryPage.jsx:295-306 | once confirmed, only that page is removed and the list is reloaded, ending with `loading` false; unconfirmed, nothing changes, notification and loading included |
| CategoryPage.Screen.HandleCancel | src/components/CategoryPage.jsx:308-312 | an empty, hidden form with nothing edited |
| EmailSettingsScreen.BackupRecord | src/components/EmailSettings.jsx:56-65 | a non-blank address gives `{email, frequency, lastSent: null}`; a blank one gives null |
| EmailSettingsScreen.SavedSettingsReadBack | src/components/EmailSettings.jsx:45-74 | after a save, the sender and backup read back as entered, and the login's salt and iterations are untouched |
| EmailSettingsScreen.SavedBackupIsDueImmediately | src/components/EmailSettings.jsx:56-61 | `lastSent` is reset, so the next backup check sends at once |
| EmailSettingsScreen.BlankBackupDisables | src/components/EmailSettings.jsx:62-65 | a blank backup address turns backups off |
| EmailSettingsScreen.Screen.constructor | src/components/EmailSettings.jsx:11-18 | the default sender, no backup address, 30 days |
| EmailSettingsScreen.Screen.LoadSettings | src/components/EmailSettings.jsx:24-38 | the sender read or the default; a backup record fills the address and period (30 days by default) |
| EmailSettingsScreen.Screen.WriteSettings | src/components/EmailSettings.jsx:53-65 | the trimmed sender is written, then the backup record |
| EmailSettingsScreen.Screen.HandleSave | src/components/EmailSettings.jsx:45-74 | a blank trimmed sender is refused with no write; otherwise the trimmed values are saved |
| LoginScreen.FirstTimeSettings | src/components/Login.jsx:42-50 | exactly `{salt, iterations: 100000}` |
| LoginScreen.Submit | src/components/Login.jsx:22-78 | first time: a short password, then a mismatch, is rejected; a valid password logs in exactly when the derivation succeeds, with the derived key, and a throw gives the generic message. Returning user: no settings is an error; otherwise the login happens exactly when derivation from the stored salt and iterations succeeds, and a throw gives the generic message |
| LoginScreen.ReturningUserPasswordUnchecked | src/components/Login.jsx:56-70 | any password logs a returning user in |
| LoginScreen.LengthCheckedBeforeConfirmation | src/components/Login.jsx:28-39 | a short password is reported as short whatever the confirmation |
| LoginScreen.Login.constructor | src/components/Login.jsx:6-11 | empty fields, no error, nothing logged in |
| LoginScreen.Login.CheckInitialization | src/components/Login.jsx:17-20 | first time exactly when no settings record exists |
| LoginScreen.Login.HandleSubmit | src/components/Login.jsx:22-78 | only a first-time success writes settings, replacing any record; a rejection sets the error and calls no `onLogin` |
| TrusteeManagement.Find | src/components/TrusteeManagement.jsx:61 | the first trustee with that id, or none exactly when no trustee has it |
| TrusteeManagement.TrusteeRecord | src/components/TrusteeManagement.jsx:54-62 | a new trustee gets the fresh id and `addedDate = now`; an edit keeps the id and the existing date (now when not found or falsy) |
| TrusteeManagement.EditThenSaveIsIdentity | src/components/TrusteeManagement.jsx:54-85 | editing a trustee and saving the unchanged form writes the trustee back unchanged |
| TrusteeManagement.Manager.constructor | src/components/TrusteeManagement.jsx:6-16 | no trustees, loading, four empty fields |
| TrusteeManagement.Manager.LoadTrustees | src/components/TrusteeManagement.jsx:22-33 | the list is every stored trustee once |
| TrusteeManagement.Manager.HandleInputChange | src/components/TrusteeManagement.jsx:40-45 | one form field takes the input value |
| TrusteeManagement.Manager.HandleSave | src/components/TrusteeManagement.jsx:47-74 | an empty name or e-mail is refused with no write and `loading` unchanged; otherwise the record is stored (one more trustee for a new id, the same count for an edit), the form is reset and the list reloaded, ending with `loading` false |
| TrusteeManagement.Manager.HandleEdit | src/components/TrusteeManagement.jsx:76-85 | the form takes the trustee's four fields and its id is being edited |
| TrusteeManagement.Manager.HandleDelete | src/components/TrusteeManagement.jsx:87-98 | once confirmed, only that trustee is removed and the list reloaded, ending with `loading` false; unconfirmed, nothing changes, notification and loading included |
| TrusteeManagement.Manager.HandleCancel | src/components/TrusteeManagement.jsx:100-104 | four empty fields, nothing edited, the form hidden |
| TrusteeManagement.Manager.ClickAdd | src/components/TrusteeManagement.jsx:139-150 | "Add" opens the form only while fewer than 2 trustees are listed |

## Left out

- Encryption and key derivation (crypto.js: PBKDF2 and AES-GCM through WebCrypto) are foreign calls.
  - Decryption is a parameter that may fail.
  - Key derivation is a parameter that may throw.
  - A save is handed the ciphertext and IV it stores.
  - No cryptographic round-trip is stated.
- The e-mail transport is the network.
  - The HTTP proxy and the Resend API are represented by the `respond` function of `Mail.Mailer`.
  - The Mailer's `answers` field relates to `respond` call by call, through `Mail.Mailer.Post`. This is not kept as an invariant of the class.
- `JSON.stringify` and `JSON.parse` are not modelled.
  - A backup file is the parsed document `BackupDoc`.
  - A backup e-mail carries the payload value.
  - Malformed JSON is not modelled; it falls into the same catch as the format check.
- Clocks, UUIDs and locale dates are parameters: `now`, `freshId`, `dateLine` and the ISO timestamp. Repeated reads of the clock within one call are taken as equal: one `dateLine` stands for the three `toLocaleString()` calls of src/utils/releaseService.js:29, 115 and 123, and one `now` for both `Date.now()` reads of src/utils/releaseService.js:80 and 138 and for each page's `Date.now()` in src/components/Backup.jsx:81.
- The order in which localForage iterates its keys is not fixed. A listing is any order that visits every key once.
- JavaScript object key order for integer-like keys is not modelled: `Object.entries` lists such keys first. Categories and property names are taken in insertion order.
- Prototype keys such as `constructor` are not modelled, in the `CATEGORY_NAMES` and `CATEGORY_FIELDS` lookups nor in the `pagesByCategory[page.category]` lookups of src/utils/releaseService.js:21-24 and src/components/ReleaseDataModal.jsx:34-37, where a page of category `constructor` would find a function and the `.push` would throw.
- String length: `password.length` counts UTF-16 code units; the model counts characters.
- Upper-casing and label capitalisation map only ASCII letters.
- `${value}` of a value that is neither a string nor an integer is not modelled.
- Storage errors other than the write that fails during an import are not modelled.
  - Import failures are the `failAt` parameter: the store write with that number throws.
  - Other handlers' catch branches, which only set a notification, are not modelled.
- App.jsx, Dashboard.jsx, server.js and the rest of the UI are not part of this model:
  - the concurrent activity update and release check on login;
  - the 60-second activity timer;
  - JSX rendering;
  - notifications that clear after three seconds;
  - `window.confirm`, which is the `confirmed` parameter;
  - clipboard copy, file download and `window.location.reload`;
  - `encodeURIComponent` and the `mailto:` navigation (the draft is modelled before URL encoding).
- The field placeholders and help texts of `CATEGORY_FIELDS` are not modelled, only keys, labels and input types.
- `getResendApiKey` and `generatePageId` are not modelled: they read an environment variable and generate a UUID.
- LoginScreen.Login.HandleSubmit: the settings write in the first-time branch is assumed not to throw.

## Findings

| source | as written | input that shows it | evidently intended | confidence | as-written member | corrected member |
|---|---|---|---|---|---|---|
| src/utils/releaseService.js:4-139 | `saveReleaseConditions` is called at line 139 but is not in the import list at line 4. The call throws a ReferenceError after every trustee has been e-mailed. The catch at line 147 reports an error, and `released` is never stored. | A stored record with `lastActivity` 61 days ago, `inactivityDays` 60, not released, and one trustee. The first check e-mails the trustee and returns an error. Every later check e-mails the trustee again (`RepeatedReleaseAsWritten`: twice the trustee count). | The release latch is stored, so a release happens once (`ReleaseIsLatched`, `RepeatedRelease`: the second check sends nothing). | high (not executed) | ReleaseService.CheckAndProcessReleaseAsWritten | ReleaseService.CheckAndProcessReleaseConditions |
