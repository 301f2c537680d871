# engage-settings-hub: the admin panel's state logic in Dafny

This project models the state-changing logic of three components of a small
admin dashboard. It also proves what each component promises.

- **WhatsApp instance panel** (`whatsapp_instance.dfy`, module `WhatsAppInstance`).
  The panel polls a messaging gateway's instance list and keeps the record named
  `agente` (or none). It classifies that record's raw connection status for the
  status card and decides which command buttons are offered. It runs the
  connect, disconnect and delete commands, with their `actionLoading` tag set on
  entry and cleared on exit. The state is the class `InstancePanel`. Each
  network answer is a parameter: an HTTP status with the parsed list, or a
  thrown error. Each async command is two events: `StartCommand` (the click) and
  `SettleCommand` (the request completes). The settle event returns the
  follow-up poll the component schedules.
- **Launch settings editor** (`launch_settings.dfy`, module `LaunchSettings`).
  It covers the id-keyed local edit (`UpdateSetting`), the choice of input kind
  by setting key, and the switch's value encoding. It also covers the save loop
  that writes each setting to the `launch_settings` table in list order and
  stops at the first refused write. The table is reduced to its value column,
  `map<int, Option<string>>`, inside the class `SettingsTable`.
- **Daily call links editor** (`daily_call_links.dfy`, module `DailyCallLinks`).
  It covers the add/edit dialog state, the update-or-insert choice of the save
  action, and the mapping from error code to message. Code 23505 is
  `unique_violation` in Appendix A "PostgreSQL Error Codes" of the PostgreSQL
  documentation. It also covers the 40-character link label and the list query
  ordered by call date, newest first. The `daily_call_links` table is the class
  `CallLinkStore`. Its rows are keyed by id, and its invariant `ValidTable`
  includes the unique `call_date` constraint. Errors that do not depend on the
  data are a `fault` parameter holding the error code.
- `optional.dfy` holds the `Option` type used for nullable fields.

The code lacks the following, and so does the model:
- a guard against overlapping polls;
- a command that rejects itself while another is in flight (mutual exclusion
  comes only from the disabled buttons, so it is the precondition of
  `StartCommand`);
- a pairing (QR code) artifact fetch.

A poll follows a successful connect (after 2000 ms) or disconnect (at once),
never a failed command and never a delete. A successful delete clears the
record at once.

## Model

| member | source | states |
|---|---|---|
| `WhatsAppInstance.FirstNamed` | src/components/WhatsAppInstance.tsx:73 | the index returned is that of a record named exactly `name`, and no earlier record has that name; there is none iff no record has that name |
| `WhatsAppInstance.Lookup` | src/components/WhatsAppInstance.tsx:73-83 | the instance kept after a successful poll is the first record named `agente`, or none iff no record has that name |
| `WhatsAppInstance.Classify` | src/components/WhatsAppInstance.tsx:211-255 | the status switch never yields not-found, and it yields disconnected exactly for `'close'` and every value other than `'open'`, `'connecting'` and `'qrcode'` |
| `WhatsAppInstance.GetStatusInfo` | src/components/WhatsAppInstance.tsx:198-256 | the card is not-found iff there is no instance; otherwise its status is the classification of the raw connection status |
| `WhatsAppInstance.ClassifyRawStatus` | src/components/WhatsAppInstance.tsx:213-246 | each status of an existing instance is shown for the raw value the gateway uses for it (`open`, `connecting`, `qrcode`, `close`) |
| `WhatsAppInstance.RawStatusOfClassify` | src/components/WhatsAppInstance.tsx:211-246 | for the four raw values the record type allows, the raw value is recovered from the status shown |
| `WhatsAppInstance.IsOk` | src/components/WhatsAppInstance.tsx:64 | a response counts as ok iff its status is in the 2xx class |
| `WhatsAppInstance.ListSucceeded` | src/components/WhatsAppInstance.tsx:47-64 | the status list is used only when the request did not throw and its status is in the 2xx class |
| `WhatsAppInstance.CommandSucceededIff2xx` | src/components/WhatsAppInstance.tsx:96-109 | a command response counts as done only when the request did not throw and its status is in the 2xx class; otherwise the command takes its error path |
| `WhatsAppInstance.ConnectedDescription` | src/components/WhatsAppInstance.tsx:214-223 | a connected card reads "Conectado" and appends " - name" exactly when a non-empty profile name is known |
| `WhatsAppInstance.ProfileSuffix` | src/components/WhatsAppInstance.tsx:220 | the suffix is empty iff the profile name is absent or empty; otherwise it is " - " followed by the name |
| `WhatsAppInstance.Offered` | src/components/WhatsAppInstance.tsx:261-366 | a command button is offered only once loaded, with no command in flight and a record present; delete needs nothing more; connect and disconnect are never offered on a connecting record |
| `WhatsAppInstance.RefreshOffered` | src/components/WhatsAppInstance.tsx:316-320 | the refresh button is offered iff the first poll has finished and no command is in flight |
| `WhatsAppInstance.OfferedMatchesStatus` | src/components/WhatsAppInstance.tsx:261-366 | connect is offered exactly when the record's raw status is `close`, hence only on a disconnected card; disconnect exactly on a connected card and delete exactly when an instance exists, in every case only once loaded and with no command in flight |
| `WhatsAppInstance.OneCommandAtATime` | src/components/WhatsAppInstance.tsx:316-366 | while `actionLoading` is set, refresh and every command are disabled; connect and disconnect are never offered together |
| `WhatsAppInstance.UnknownStatusHasNoConnectButton` | src/components/WhatsAppInstance.tsx:244-333 | for every raw status outside `open`, `connecting`, `qrcode` and `close`, the card shows disconnected, yet the connect button is offered in no loading or command state |
| `WhatsAppInstance.InstancePanel.constructor` | src/components/WhatsAppInstance.tsx:31-33 | at mount there is no instance, `loading` is true and no command is in flight |
| `WhatsAppInstance.InstancePanel.FetchInstanceStatus` | src/components/WhatsAppInstance.tsx:47-94 | a successful poll (no throw, status 200..299) sets the instance to the first record named `agente` or none; a failed poll keeps the instance and raises an error toast; `loading` ends false either way and `actionLoading` is untouched |
| `WhatsAppInstance.InstancePanel.StartCommand` | src/components/WhatsAppInstance.tsx:96-196 | a command can start only when its button is offered; it sets `actionLoading` to its own tag and changes nothing else |
| `WhatsAppInstance.InstancePanel.SettleCommand` | src/components/WhatsAppInstance.tsx:96-196 | `actionLoading` is cleared whatever the outcome; success of connect schedules a poll after 2000 ms, of disconnect an immediate poll, of delete clears the instance without polling; a failure changes nothing else and schedules no poll |
| `WhatsAppInstance.DisconnectScenario` | src/components/WhatsAppInstance.tsx:132-163 | disconnect from a connected card, then its immediate poll reporting `close`, leaves a disconnected card that offers connect again |
| `LaunchSettings.UpdateSetting` | src/components/LaunchSettings.tsx:49-55 | the list keeps its length and order; entries with the given id get the new value and keep every other field; all other entries are unchanged |
| `LaunchSettings.UpdateSettingIdempotent` | src/components/LaunchSettings.tsx:49-55 | applying the same edit twice equals applying it once |
| `LaunchSettings.UpdateSettingCommutes` | src/components/LaunchSettings.tsx:49-55 | edits of two different ids give the same list in either order |
| `LaunchSettings.ShownValue` | src/components/LaunchSettings.tsx:91 | a null value is shown as the empty string, any other value as itself |
| `LaunchSettings.Includes` | src/components/LaunchSettings.tsx:103-114 | the substring test holds whenever the marker is a prefix, and only when the marker is no longer than the key |
| `LaunchSettings.IncludesIffOccurs` | src/components/LaunchSettings.tsx:103-114 | the substring test holds iff the marker occurs at some position of the key |
| `LaunchSettings.InputKindOf` | src/components/LaunchSettings.tsx:93-133 | the input chosen for a key: switch iff the key is exactly `is_active`; date iff not that and the key contains `_date`; time iff neither of those and it contains `_time`; text otherwise |
| `LaunchSettings.DateWinsOverTime` | src/components/LaunchSettings.tsx:103-124 | a key other than `is_active` containing both `_date` and `_time` gets a date input |
| `LaunchSettings.ToggledValue` | src/components/LaunchSettings.tsx:97 | toggling writes exactly `'true'` or `'false'` |
| `LaunchSettings.SwitchChecked` | src/components/LaunchSettings.tsx:96 | the switch is on iff the stored value is exactly `"true"`; a null or any other value shows it off |
| `LaunchSettings.ToggleRoundTrip` | src/components/LaunchSettings.tsx:96-97 | after toggling a switch to a position, every entry with that id shows the switch in that position |
| `LaunchSettings.UpdatesOf` | src/components/LaunchSettings.tsx:60-63 | one update per setting, in list order, carrying its id and value |
| `LaunchSettings.WriteAllKeys` | src/components/LaunchSettings.tsx:65-72 | the writes never add or remove rows of the table |
| `LaunchSettings.WriteAllElsewhere` | src/components/LaunchSettings.tsx:65-72 | a row that no update names keeps its value |
| `LaunchSettings.WriteAllLastWins` | src/components/LaunchSettings.tsx:65-72 | an existing row holds the value of the last update that names it |
| `LaunchSettings.SavedValues` | src/components/LaunchSettings.tsx:60-72 | when every write succeeds and ids are unique, each setting with a row in the table holds its local value there, and every other row is unchanged |
| `LaunchSettings.FirstRefusal` | src/components/LaunchSettings.tsx:65-72 | the index of the first refused write (the list length if none): all writes before it were accepted, and that one was refused |
| `LaunchSettings.SettingsTable.Apply` | src/components/LaunchSettings.tsx:66-71 | an accepted update sets the row with that id, or changes nothing when no row has that id; a refused one changes nothing |
| `LaunchSettings.LaunchSettingsPanel.constructor` | src/components/LaunchSettings.tsx:20-22 | at mount the list is empty, `loading` is true and `saving` is false |
| `LaunchSettings.LaunchSettingsPanel.FetchSettings` | src/components/LaunchSettings.tsx:28-47 | rows replace the list; on an error the list is kept; `loading` ends false either way |
| `LaunchSettings.LaunchSettingsPanel.EditSetting` | src/components/LaunchSettings.tsx:49-55 | an input change applies `UpdateSetting` to the list and touches no flag |
| `LaunchSettings.LaunchSettingsPanel.SaveSettings` | src/components/LaunchSettings.tsx:57-88 | writes are issued in list order up to the first refusal; the table then holds exactly the writes before it; success iff none was refused; the list is unchanged and `saving` ends false |
| `DailyCallLinks.LexLtTotal` | src/components/DailyCallLinks.tsx:37 | two different call dates are ordered one way or the other |
| `DailyCallLinks.LexLtTransitive` | src/components/DailyCallLinks.tsx:37 | the call-date order is transitive |
| `DailyCallLinks.LexLtDistinct` | src/components/DailyCallLinks.tsx:37 | the call-date order is strict: a date that sorts before another is a different date, so a sorted list never shows one date twice |
| `DailyCallLinks.InsertByDate` | src/components/DailyCallLinks.tsx:37 | inserting a row with a new date into a newest-first list keeps it newest-first and adds exactly that row |
| `DailyCallLinks.CallLinkStore.SelectByDateDesc` | src/components/DailyCallLinks.tsx:32-37 | the list query returns every row of the table, and only those, strictly newest date first; a fault returns its error |
| `DailyCallLinks.InsertLink` | src/components/DailyCallLinks.tsx:89-97 | an insert adds one row under a fresh id with the form's values; without a fault it fails with 23505 iff the date is already taken; a failure changes nothing; the unique-date invariant is kept |
| `DailyCallLinks.UpdateLink` | src/components/DailyCallLinks.tsx:72-82 | an update rewrites only the row with that id (no row, no change, no error); without a fault it fails with 23505 iff another row has the date; the set of rows is unchanged and the invariant kept |
| `DailyCallLinks.DeleteLinkRow` | src/components/DailyCallLinks.tsx:123-130 | a delete removes only the row with that id; a failure changes nothing |
| `DailyCallLinks.SaveErrorMessage` | src/components/DailyCallLinks.tsx:110-113 | the duplicate-date message iff the code is `'23505'`, the generic message otherwise |
| `DailyCallLinks.DuplicateMessageIffDateTaken` | src/components/DailyCallLinks.tsx:70-113 | barring other faults, a save (insert, or update of an existing row) shows the duplicate-date text iff another row already has the typed date |
| `DailyCallLinks.FormFor` | src/components/DailyCallLinks.tsx:53-60 | editing copies the row's date and link into the form; adding starts from an empty form, on which save is disabled |
| `DailyCallLinks.SaveEnabled` | src/components/DailyCallLinks.tsx:221 | the save button is enabled iff both the date and the link are non-empty, so never on the empty form |
| `DailyCallLinks.LinkLabel` | src/components/DailyCallLinks.tsx:257-260 | a link up to 40 characters is shown as is; a longer one as its first 40 characters and `...`, 43 in all |
| `DailyCallLinks.LinkLabelIdempotent` | src/components/DailyCallLinks.tsx:257-260 | shortening a shown label again changes nothing |
| `DailyCallLinks.CallLinksPanel.constructor` | src/components/DailyCallLinks.tsx:22-26 | at mount: empty list, `loading`, dialog closed, no editing row, empty form |
| `DailyCallLinks.CallLinksPanel.FetchLinks` | src/components/DailyCallLinks.tsx:32-51 | rows replace the list, an error keeps it; `loading` ends false; the dialog is untouched |
| `DailyCallLinks.CallLinksPanel.OpenDialog` | src/components/DailyCallLinks.tsx:53-62 | the dialog opens with the given row (or none) as editing row and the matching form |
| `DailyCallLinks.CallLinksPanel.CloseDialog` | src/components/DailyCallLinks.tsx:64-68 | the dialog closes with no editing row and an empty form |
| `DailyCallLinks.CallLinksPanel.SetDialogOpen` | src/components/DailyCallLinks.tsx:178 | dismissing the dialog through its own handler changes only the open flag |
| `DailyCallLinks.CallLinksPanel.EditCallDate` | src/components/DailyCallLinks.tsx:201 | typing a date changes only the form's date |
| `DailyCallLinks.CallLinksPanel.EditMeetLink` | src/components/DailyCallLinks.tsx:211 | typing a link changes only the form's link |
| `DailyCallLinks.CallLinksPanel.SaveLink` | src/components/DailyCallLinks.tsx:70-121 | offered only with both inputs filled; updates the editing row or else inserts, never both; on success it asks for a reload and closes and clears the dialog; on failure it reports the message for the error code and leaves dialog, form and editing row as they were |
| `DailyCallLinks.CallLinksPanel.DeleteLink` | src/components/DailyCallLinks.tsx:123-146 | the table loses only that row, and a reload is asked for iff the delete succeeded; a failure leaves the table unchanged |
| `DailyCallLinks.DuplicateDateScenario` | src/components/DailyCallLinks.tsx:107-119 | adding a link for a date that already has one returns the duplicate-date message, leaves the table as it was, and keeps the dialog open with what was typed |
| `DailyCallLinks.AddLinkScenario` | src/components/DailyCallLinks.tsx:89-106 | adding the first link succeeds, closes and clears the dialog, and the reload ordered by date shows exactly that one row |

## Left out

- HTTP plumbing: URLs, headers, the API key and the base-URL defaults. Each request is a status with a parsed body, or a thrown error.
- JSON parsing failures and a non-array body are folded into the thrown case (`ListThrown`).
- Timers. The 5-second polling interval and the 2-second delay after connect are not clocks: each poll is an explicit `FetchInstanceStatus` event, and the delay is reported as `PollAfter(2000)`.
- Interleavings inside one async handler. Each event is atomic, so overlapping polls and a poll landing between a request and its response are not modelled. A poll may still complete between `StartCommand` and `SettleCommand`.
- Rendering: JSX, icons, colours, badge variants and CSS. Toast texts other than the save-error message are reduced to a `Notice` tag, a reload request or nothing. `console.log` output is left out.
- Date formatting with date-fns and `toLocaleString`/`toLocaleTimeString`, because they depend on locale and time zone.
- Instance record fields the panel does not use (`integration`, `number`, `token`, `clientName`, timestamps, `profilePicUrl`) and the message count shown with `toLocaleString`.
- `DailyCallLinks.LinkLabel`: counts Dafny characters (Unicode scalar values), while JavaScript's `length` and `substring` count UTF-16 code units. The two differ only for characters outside the Basic Multilingual Plane.
- `DailyCallLinks.LexLt`: orders call dates by their text, which matches the chronological order of a `date` column only for well-formed `YYYY-MM-DD` values. Invalid dates reach the database only as a `fault`.
- The database is reduced to what the components rely on: the id-keyed rows, the unique `call_date`, and the fact that an update or delete matching no row is not an error. Any other error (network, permissions, invalid input) is the `fault` parameter.
- `LaunchSettings.LaunchSettingsPanel.SaveSettings`: `saving` is true only inside the method, so the rendered "Salvando..." state is not observable. Edits made while a save is awaiting are not modelled; the list written is the one at the start, as in the code.
- The delete confirmation dialogs are not state in the model. A delete event stands for the confirmed click.
- The login page, the index page and the user-creation script. They hold credentials and calls to an external identity provider, and no state logic.
