/**
 * The routes of the admin console (web_admin.py) that compute something from
 * the document: the dashboard counts, the three listing pages, the settings
 * page, the JSON exports and the send-message check. Each route loads the
 * document afresh from the backing file `f`; rendering is left to templates.
 */
module Console {
  import opened Wrappers
  import opened Json
  import opened Store
  import opened Pagination
  import opened Formatting

  /** `GET /api/users`: the user records, in the file's order. */
  function ApiUsers(f: FileState): (r: seq<Record>)
    ensures |r| == |Users(LoadDb(f))|
    ensures forall k :: 0 <= k < |r| ==> r[k] == Users(LoadDb(f))[k].record
  {
    Values(Users(LoadDb(f)))
  }

  /** `GET /api/devices`: the device records, in the file's order. */
  function ApiDevices(f: FileState): (r: seq<Record>)
    ensures |r| == |Devices(LoadDb(f))|
    ensures forall k :: 0 <= k < |r| ==> r[k] == Devices(LoadDb(f))[k].record
  {
    Values(Devices(LoadDb(f)))
  }

  /** `GET /api/messages`: the whole message list, unpaged. */
  function ApiMessages(f: FileState): (r: seq<Record>)
    ensures forall doc :: f == Present(Parsed(doc)) && doc.messages.Some? ==> r == doc.messages.value
    ensures forall doc :: f == Present(Parsed(doc)) && doc.messages.None? ==> r == []
    ensures f == Absent || f == Present(Unreadable) ==> r == []
  {
    Messages(LoadDb(f))
  }

  /** The three figures of the dashboard. */
  datatype Counts = Counts(users: nat, devices: nat, messages: nat)

  /** `index`: the sizes of the three collections, a missing one counting as empty. */
  function Dashboard(f: FileState): (c: Counts)
    ensures c.users == |ApiUsers(f)| && c.devices == |ApiDevices(f)| && c.messages == |ApiMessages(f)|
    ensures f == Absent || f == Present(Unreadable) ==> c == Counts(0, 0, 0)
  {
    var db := LoadDb(f);
    Counts(|Users(db)|, |Devices(db)|, |Messages(db)|)
  }

  /** `users_page`: the user records with `joined_at` reformatted. */
  method UsersPage(f: FileState, reformat: string -> Option<string>) returns (r: Result<seq<Record>>)
    ensures var users := ApiUsers(f);
      (r.Ok? <==> forall k :: 0 <= k < |users| ==> FormatRecord(UserListing, users[k], reformat).Ok?) &&
      (r.Ok? ==>
         |r.value| == |users| &&
         forall k :: 0 <= k < |users| ==> r.value[k] == FormatRecord(UserListing, users[k], reformat).value)
  {
    var users := Values(Users(LoadDb(f)));
    assert users == ApiUsers(f);
    r := FormatListing(UserListing, users, reformat);
    FormatAllPointwise(UserListing, users, reformat);
  }

  /** `devices_page`: the device records with `registered_at` and a truthy `last_upload` reformatted. */
  method DevicesPage(f: FileState, reformat: string -> Option<string>) returns (r: Result<seq<Record>>)
    ensures var devices := ApiDevices(f);
      (r.Ok? <==> forall k :: 0 <= k < |devices| ==> FormatRecord(DeviceListing, devices[k], reformat).Ok?) &&
      (r.Ok? ==>
         |r.value| == |devices| &&
         forall k :: 0 <= k < |devices| ==> r.value[k] == FormatRecord(DeviceListing, devices[k], reformat).value)
  {
    var devices := Values(Devices(LoadDb(f)));
    assert devices == ApiDevices(f);
    r := FormatListing(DeviceListing, devices, reformat);
    FormatAllPointwise(DeviceListing, devices, reformat);
  }

  /** What the messages template receives. */
  datatype MessagesView = MessagesView(messages: seq<Record>, page: int, totalPages: nat)

  /**
   * `messages_page`: the requested page of messages, its `timestamp` fields
   * reformatted, with the page number echoed and the page count.
   */
  method MessagesPage(f: FileState, page: int, reformat: string -> Option<string>) returns (r: Result<MessagesView>)
    ensures var all := ApiMessages(f);
      var shown := Page(all, page);
      (r.Ok? <==> forall k :: 0 <= k < |shown| ==> FormatRecord(MessageListing, shown[k], reformat).Ok?) &&
      (r.Ok? ==>
         r.value.page == page && r.value.totalPages == TotalPages(|all|) &&
         |r.value.messages| == |shown| <= PerPage &&
         forall k :: 0 <= k < |shown| ==> r.value.messages[k] == FormatRecord(MessageListing, shown[k], reformat).value)
  {
    var messages := Messages(LoadDb(f));
    var start := (page - 1) * PerPage;
    var end := start + PerPage;
    var shown := PySlice(messages, start, end);
    assert messages == ApiMessages(f) && shown == Page(messages, page);
    var formatted := FormatListing(MessageListing, shown, reformat);
    FormatAllPointwise(MessageListing, shown, reformat);
    match formatted {
      case Err(e) => r := Err(e);
      case Ok(ms) => r := Ok(MessagesView(ms, page, (|messages| + PerPage - 1) / PerPage));
    }
  }

  /** A request to `/settings`. */
  datatype SettingsRequest =
    | Show                                              // GET
    | Submit(form: map<string, string>, write: WriteOutcome)  // POST, and how the write ended

  /** What the settings template receives. */
  datatype SettingsView = SettingsView(settings: map<string, string>, success: bool, error: Option<string>)

  /** The backing file once a settings form has been submitted: the loaded document with its settings replaced. */
  function SettingsStored(f: FileState, form: map<string, string>, write: WriteOutcome): FileState
  {
    Save(f, LoadDb(f).(settings := Some(form)), write)
  }

  /**
   * `settings_page`. A GET shows the stored settings. A POST replaces the
   * settings object by the form and writes the whole document back; on
   * success the form is shown, on failure the settings as loaded and the
   * exception text.
   */
  method SettingsPage(f: FileState, req: SettingsRequest) returns (view: SettingsView, f': FileState)
    ensures req.Show? ==> f' == f && view == SettingsView(Settings(LoadDb(f)), false, None)
    ensures req.Submit? ==> f' == SettingsStored(f, req.form, req.write)
    ensures req.Submit? && req.write == Written ==> view == SettingsView(req.form, true, None)
    ensures req.Submit? && !req.write.Written? ==>
      view == SettingsView(Settings(LoadDb(f)), false, Some(req.write.reason))
  {
    var db := new Db(LoadDb(f));
    var settings := Settings(db.Snapshot());
    match req {
      case Show =>
        view, f' := SettingsView(settings, false, None), f;
      case Submit(form, write) =>
        db.AssignSettings(form);
        f' := Save(f, db.Snapshot(), write);
        match write {
          case Written => view := SettingsView(form, true, None);
          case OpenFailed(reason) => view := SettingsView(settings, false, Some(reason));
          case DumpFailed(reason) => view := SettingsView(settings, false, Some(reason));
        }
    }
  }

  /**
   * A written settings form is read back exactly (no key of the old settings
   * survives unless the form has it) and users, devices and messages read
   * back as they were loaded.
   */
  lemma SettingsReplacedNotMerged(f: FileState, form: map<string, string>)
    ensures var after := LoadDb(SettingsStored(f, form, Written));
      after == LoadDb(f).(settings := Some(form)) &&
      Settings(after) == form &&
      forall k :: k in Settings(LoadDb(f)) && k !in form ==> k !in Settings(after)
  {
  }

  /**
   * Because `load_db` reads a corrupt file as empty, saving settings over it
   * replaces the file by a document whose only content is the form.
   */
  lemma SettingsOverCorruptFile(form: map<string, string>)
    ensures var f' := SettingsStored(Present(Unreadable), form, Written);
      Dashboard(f') == Counts(0, 0, 0) && Settings(LoadDb(f')) == form
  {
  }

  /** A write that fails after truncating leaves a file that every later page reads as empty. */
  lemma FailedDumpLosesDocument(f: FileState, form: map<string, string>, reason: string)
    ensures var f' := SettingsStored(f, form, DumpFailed(reason));
      Dashboard(f') == Counts(0, 0, 0) && Settings(LoadDb(f')) == map[]
  {
  }

  /** The error text of a rejected send ("missing parameters"). */
  const MissingParameters: string := "缺少参数"

  /** The JSON reply of `/api/send_message`. */
  datatype SendReply = SendReply(success: bool, error: Option<string>)

  /**
   * `api_send_message` on a JSON object body: `chat_id` and `text` must both
   * be present and truthy. Nothing is sent and the document is not touched
   * either way.
   */
  function SendMessage(body: map<string, Json>): (r: SendReply)
    ensures r.success <==> "chat_id" in body && Truthy(body["chat_id"]) && "text" in body && Truthy(body["text"])
    ensures !r.success ==> r.error == Some(MissingParameters)
    ensures r.success ==> r.error == None
  {
    if !Truthy(Get(body, "chat_id")) || !Truthy(Get(body, "text"))
    then SendReply(false, Some(MissingParameters))
    else SendReply(true, None)
  }
}
