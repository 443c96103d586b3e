# Admin console document model

A Dafny model of the web administration console of a Telegram bot system
(`web_admin.py`). The console keeps no document state between requests. Each page
and JSON export loads the JSON document at `DB_PATH` (default `data/db.json`),
with the collections `users`, `devices`, `messages` and `settings`. It then
computes a page or a JSON reply from it. The settings page writes the whole
document back. The model covers:

- `Store`: the document, the state of the backing file (absent, present and parsed,
  present but unreadable), `load_db` and the effect of the settings write.
  It also has the `Db` class, the in-memory dict whose `settings` entry the
  settings page reassigns.
- `Pagination`: Python slice semantics (`PySlice`), the 20-per-page slicing of the
  message list and `total_pages`.
- `Formatting`: the loops that rewrite the date fields of each listed record.
  There is one loop for users, one for devices and one for messages. The model has
  one `FormatListing` method, proved against the specification `FormatAll`.
- `Console`: the routes. It covers the dashboard counts, the users, devices and
  messages pages, the settings page, the three JSON exports and the send-message check.
- `Auth`: the static account table, the user loader and the login check.
- `Json`, `Wrappers`: JSON values with Python truthiness; `Option` and `Result`.

Some behaviour of the code worth knowing:

- `load_db` returns the empty document when the file is corrupt or cannot be read.
  It does not raise a distinct error in that case (`Store.LoadDb`,
  `Store.MissingAndCorruptAlike`).
- Nothing locks the file.
- The settings write truncates the file in place. There is no temporary file and no
  rename (`Store.Save`, `Console.FailedDumpLosesDocument`).
- There is no session-token logic beyond flask_login.

The lemmas `SettingsOverCorruptFile` and `FailedDumpLosesDocument` state what this
means for the stored data.

## Model

| member | source | states |
|---|---|---|
| Store.EmptyDocument | web_admin.py:43 | the fallback document has all four collections present and empty |
| Store.LoadDb | web_admin.py:37-46 | an absent file and an unreadable or unparsable file both give the empty document; a parsed file gives its document; it never fails |
| Store.MissingAndCorruptAlike | web_admin.py:40-46 | `load_db` cannot tell a missing file from a corrupt one: both load the same document, with no messages |
| Store.Save | web_admin.py:155-157 | after a completed write, reloading gives the written document back; a failed `open` leaves the file unchanged; a failed dump leaves a file that loads as the empty document |
| Store.Users | web_admin.py:53 | `db.get('users', {})`: the stored users, or none when the key is missing |
| Store.Devices | web_admin.py:104 | `db.get('devices', {})`: the stored devices, or none when the key is missing |
| Store.Messages | web_admin.py:120 | `db.get('messages', [])`: the stored messages, or none when the key is missing |
| Store.Settings | web_admin.py:147 | `db.get('settings', {})`: the stored settings, or the empty map when the key is missing |
| Json.Truthy | web_admin.py:110 | a JSON value is falsy exactly when it is null, false, zero, the empty string, the empty array or the empty object |
| Json.Get | web_admin.py:190-191 | `data.get(key)` is the value under a present key, and null (`None`) when the key is missing |
| Store.Values | web_admin.py:169 | `dict.values()` keeps one record per entry, in insertion order |
| Store.Db.constructor | web_admin.py:146 | the loaded dict holds exactly the loaded document |
| Store.Db.AssignSettings | web_admin.py:152 | the settings object becomes exactly the given map; users, devices and messages are unchanged |
| Pagination.SliceBound | web_admin.py:128 | a slice bound is clamped to [0, len]; a negative bound counts from the end |
| Pagination.PySlice | web_admin.py:128 | `s[i:j]` is the contiguous run of `s` between the normalised bounds, empty when they cross |
| Pagination.Page | web_admin.py:124-128 | a page has at most 20 items; page p >= 1 is `s[min(20(p-1), len) .. min(20p, len)]`; page 0 is empty |
| Pagination.TotalPages | web_admin.py:135 | `total_pages` is 0 for no messages, otherwise the least t with len <= 20t, so (t-1)*20 < len |
| Pagination.PageBeyondEndIsEmpty | web_admin.py:125-128 | a page starting at or past the end is an empty list, not an error |
| Pagination.PageNonEmptyIff | web_admin.py:124-135 | for p >= 1, page p is non-empty exactly when p <= total_pages |
| Pagination.NegativePage | web_admin.py:123-128 | a negative page is not rejected; it shows the run counted from the end of the list |
| Pagination.PagesArePrefix | web_admin.py:124-128 | pages 1..k laid end to end are the first 20k messages, in order |
| Pagination.AllPagesCoverMessages | web_admin.py:124-135 | pages 1..total_pages together are exactly the message list: nothing lost, repeated or reordered |
| Pagination.FortyFiveMessages | web_admin.py:124-135 | with 45 messages there are 3 pages; page 1 is the first 20, page 3 the last 5, and page 4 is empty |
| Formatting.ReformatKey | web_admin.py:94-95 | a present date field must be a string that `fromisoformat` accepts, and is replaced by its reformatting; an absent field leaves the record as it is; no other key changes |
| Formatting.FormatRecord | web_admin.py:107-111 | one loop iteration succeeds exactly when every date field it rewrites parses (present fields; `last_upload` only when truthy), and then replaces exactly those fields by their reformatting; a failure names a rewritten field, and a device fails on `registered_at` first |
| Formatting.FormatRecordTouchesOnlyDates | web_admin.py:107-111 | formatting a record keeps its keys and changes only the listing's date fields; `last_upload` is touched only when truthy |
| Formatting.FormatAllStopsAtFailure | web_admin.py:131-133 | once a record raises, the records after it do not change the outcome |
| Formatting.FormatAllPointwise | web_admin.py:93-95 | a listing formats exactly when every record does, and then it is the records formatted one by one, in the same order |
| Formatting.FormatListing | web_admin.py:131-133 | the in-order loop computes the listing specification `FormatAll`, including the first failure |
| Console.ApiUsers | web_admin.py:164-169 | the export lists every user record, in file order |
| Console.ApiDevices | web_admin.py:171-176 | the export lists every device record, in file order |
| Console.ApiMessages | web_admin.py:178-183 | the export is the stored message list; it is empty when the file is absent or unreadable, or parses without a `messages` key |
| Console.Dashboard | web_admin.py:50-60 | the three counts equal the lengths of the three exports; all are 0 when the file is absent or unreadable |
| Console.UsersPage | web_admin.py:85-97 | the page succeeds exactly when every user's `joined_at` formats, and then lists the reformatted users in order |
| Console.DevicesPage | web_admin.py:99-113 | the page succeeds exactly when every device's dates format, and then lists the reformatted devices in order |
| Console.MessagesPage | web_admin.py:115-140 | the page shows the requested slice of at most 20 messages with timestamps reformatted, echoes the page number and gives total_pages; it fails exactly when a shown timestamp does not parse |
| Console.SettingsPage | web_admin.py:142-162 | GET shows the stored settings and writes nothing; POST writes the loaded document with settings replaced, and shows the form on success or the old settings and the error text on failure |
| Console.SettingsReplacedNotMerged | web_admin.py:151-157 | after a written update the whole document reads back as the loaded one with only `settings` replaced (users and devices with their ids, messages); the settings are exactly the form, with no old key merged in |
| Console.SettingsOverCorruptFile | web_admin.py:146-157 | saving settings over a corrupt file leaves a document with no users, devices or messages |
| Console.FailedDumpLosesDocument | web_admin.py:155-160 | a write that fails after truncation makes every later load see the empty document |
| Console.SendMessage | web_admin.py:185-198 | success exactly when `chat_id` and `text` are both present and truthy; otherwise the missing-parameters error; no document is read or written |
| Auth.Accounts | web_admin.py:17-20 | the account table has exactly the keys admin and support, with the hashes of their fixed passwords |
| Auth.LoadUser | web_admin.py:28-32 | a user is returned exactly when the id is a key of the account table, and it carries that id |
| Auth.Login | web_admin.py:62-74 | login succeeds exactly when the user name is an account and its stored hash accepts the password; the user it logs in is one the loader returns; otherwise the error message is shown |
| Auth.LoginWithFaithfulHash | web_admin.py:69 | when the hash check accepts exactly the hashed password, only admin/admin123 and support/support123 log in |

## Left out

- Flask routing, templates, redirects, `jsonify` and the flask_login session machinery (`login_user`, `logout_user`, `@login_required`) are framework plumbing. Each route is modelled by the value it passes to its template or reply.
- File I/O is not modelled. The file is an input `FileState`. The outcome of the settings write is an input `WriteOutcome`. JSON text, `indent=4` and the exact bytes of a partial write are not modelled.
- Store.LoadDb: a read error and a parse error are merged into one `Unreadable` state, because the code treats them alike.
- Store.Document: top-level keys other than the four collections are not modelled.
- Store.Document: users, devices and messages are taken to hold JSON objects, and `settings` to map strings to strings. A file with other shapes is not modelled; the Python then raises or behaves differently.
- Store.Document: users and devices are entry lists, which can hold a repeated id. A JSON object loaded by `json.load` cannot. The model does not exclude repeated ids.
- Formatting.BadTimestamp: the failure text is the model's own. The code raises `ValueError` or `TypeError` from `fromisoformat`, and Flask answers with a server error.
- Store.LoadDb: the `print` of the exception in `load_db` is console output and is not modelled.
- JSON numbers are modelled as reals. Python's int/float distinction plays no part in the logic.
- `generate_password_hash`, `check_password_hash` and `datetime.fromisoformat(...).strftime(...)` are library calls. They appear as function parameters (`hash`, `check`, `reformat`), with no properties assumed.
- Auth.Login: werkzeug raises when the password field is absent. The model passes the absent value to the abstract `check` and does not model that error.
- `request.args.get('page', 1, type=int)` is not modelled: the page arrives as an integer. `request.json` is taken to be a JSON object.
- Console.SendMessage: the success path sends nothing, as in the code. No bot API call is modelled.
- The records the formatting loops mutate in place are values here. Aliasing between the page and the loaded dict is not modelled, because the dict is discarded after each request.
- `logout` and the GET branch of `login` only redirect or render, so they are not modelled.
- The bot processes are not part of this model. `main.py` only parses arguments, creates directories and starts bot classes.
- There is no cross-process locking, no atomic write and no concurrent access: the code has none of them.
