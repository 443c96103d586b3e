/**
 * The shared JSON document of the admin console (web_admin.py): its shape,
 * the state of the backing file, `load_db` and the whole-document write that
 * the settings page performs.
 */
module Store {
  import opened Wrappers
  import opened Json

  /** One key/value pair of a JSON object that the code reads in insertion order. */
  datatype Entry = Entry(id: string, record: Record)

  /**
   * The root object of the document. A Python dict keeps insertion order, so
   * `users` and `devices` are ordered entry lists; each collection may be
   * missing from a file written by someone else, hence the Options.
   */
  datatype Document = Document(
    users: Option<seq<Entry>>,
    devices: Option<seq<Entry>>,
    messages: Option<seq<Record>>,
    settings: Option<map<string, string>>)

  /** What a read of the backing file yields when the file exists. */
  datatype Contents =
    | Parsed(doc: Document)   // `json.load` succeeded
    | Unreadable              // `open` or `json.load` raised

  /** The backing file at DB_PATH. */
  datatype FileState = Absent | Present(contents: Contents)

  /** How the `open(DB_PATH, 'w')` + `json.dump` pair of the settings page ended. */
  datatype WriteOutcome =
    | Written
    | OpenFailed(reason: string)   // nothing was truncated
    | DumpFailed(reason: string)   // the file was truncated and only partly rewritten

  /** The document `load_db` falls back to: the four collections, all empty. */
  function EmptyDocument(): (d: Document)
    ensures Users(d) == [] && Devices(d) == [] && Messages(d) == [] && Settings(d) == map[]
    ensures d.users.Some? && d.devices.Some? && d.messages.Some? && d.settings.Some?
  {
    Document(Some([]), Some([]), Some([]), Some(map[]))
  }

  /** `db.get('users', {})`. */
  function Users(d: Document): (r: seq<Entry>)
    ensures d.users.Some? ==> r == d.users.value
    ensures d.users.None? ==> r == []
  {
    match d.users
    case Some(es) => es
    case None => []
  }

  /** `db.get('devices', {})`. */
  function Devices(d: Document): (r: seq<Entry>)
    ensures d.devices.Some? ==> r == d.devices.value
    ensures d.devices.None? ==> r == []
  {
    match d.devices
    case Some(es) => es
    case None => []
  }

  /** `db.get('messages', [])`. */
  function Messages(d: Document): (r: seq<Record>)
    ensures d.messages.Some? ==> r == d.messages.value
    ensures d.messages.None? ==> r == []
  {
    match d.messages
    case Some(ms) => ms
    case None => []
  }

  /** `db.get('settings', {})`. */
  function Settings(d: Document): (r: map<string, string>)
    ensures d.settings.Some? ==> r == d.settings.value
    ensures d.settings.None? ==> r == map[]
  {
    match d.settings
    case Some(s) => s
    case None => map[]
  }

  /** `d.values()` of an ordered dict, in insertion order. */
  function Values(es: seq<Entry>): (vs: seq<Record>)
    ensures |vs| == |es|
    ensures forall k :: 0 <= k < |es| ==> vs[k] == es[k].record
  {
    seq(|es|, k requires 0 <= k < |es| => es[k].record)
  }

  /**
   * `load_db`: the parsed document when the file exists and can be read,
   * otherwise the empty document. It never fails, and it cannot tell a
   * missing file from a corrupt one.
   */
  function LoadDb(f: FileState): (d: Document)
    ensures f == Absent ==> d == EmptyDocument()
    ensures f == Present(Unreadable) ==> d == EmptyDocument()
    ensures forall doc :: f == Present(Parsed(doc)) ==> d == doc
  {
    match f
    case Absent => EmptyDocument()
    case Present(Unreadable) => EmptyDocument()
    case Present(Parsed(doc)) => doc
  }

  /** The backing file after the settings page tried to write `doc` over `f`. */
  function Save(f: FileState, doc: Document, outcome: WriteOutcome): (f': FileState)
    ensures outcome == Written ==> LoadDb(f') == doc
    ensures outcome.OpenFailed? ==> f' == f
    ensures outcome.DumpFailed? ==> LoadDb(f') == EmptyDocument()
  {
    match outcome
    case Written => Present(Parsed(doc))
    case OpenFailed(_) => f
    case DumpFailed(_) => Present(Unreadable)
  }

  /** The two failure modes of a read are indistinguishable to every caller of `load_db`. */
  lemma MissingAndCorruptAlike()
    ensures LoadDb(Absent) == LoadDb(Present(Unreadable))
    ensures Messages(LoadDb(Present(Unreadable))) == []
  {
  }

  /**
   * The dict that one request loaded, which `settings_page` changes in place
   * (`db['settings'] = new_settings`) before writing it back.
   */
  class Db {
    var users: Option<seq<Entry>>
    var devices: Option<seq<Entry>>
    var messages: Option<seq<Record>>
    var settings: Option<map<string, string>>

    /** The document value this dict currently holds. */
    function Snapshot(): Document
      reads this
    {
      Document(users, devices, messages, settings)
    }

    constructor (d: Document)
      ensures Snapshot() == d
    {
      users, devices, messages, settings := d.users, d.devices, d.messages, d.settings;
    }

    /** `db['settings'] = s`: the settings object is replaced, never merged. */
    method AssignSettings(s: map<string, string>)
      modifies this
      ensures Settings(Snapshot()) == s
      ensures Snapshot() == old(Snapshot()).(settings := Some(s))
    {
      settings := Some(s);
    }
  }
}
