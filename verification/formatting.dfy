/**
 * The date-formatting loops of the users, devices and messages pages
 * (web_admin.py): each record of the listing has its timestamp fields
 * rewritten by `datetime.fromisoformat(v).strftime(...)`, in listing order;
 * the first value that is not an ISO string makes the request fail.
 * The library call itself is the parameter `reformat`, None where
 * `fromisoformat` raises.
 */
module Formatting {
  import opened Wrappers
  import opened Json

  /** Which page's loop is running. */
  datatype Listing = UserListing | DeviceListing | MessageListing

  /** The message of the failure raised for field `key`. */
  function BadTimestamp(key: string): string
  {
    "invalid timestamp in " + key
  }

  /**
   * `rec[key] = fromisoformat(rec[key]).strftime(...)` when `key in rec`;
   * a non-string value (null included) or an unparsable string raises.
   */
  function ReformatKey(rec: Record, key: string, reformat: string -> Option<string>): (r: Result<Record>)
    ensures r.Ok? ==> r.value.Keys == rec.Keys
    ensures r.Ok? ==> forall k :: k in rec && k != key ==> r.value[k] == rec[k]
    ensures key !in rec ==> r == Ok(rec)
    ensures key in rec ==> (r.Ok? <==> rec[key].JString? && reformat(rec[key].s).Some?)
    ensures key in rec && r.Ok? ==> r.value[key] == JString(reformat(rec[key].s).value)
    ensures r.Err? ==> r.error == BadTimestamp(key)
  {
    if key !in rec then Ok(rec)
    else match rec[key]
      case JString(s) =>
        (match reformat(s)
         case Some(t) => Ok(rec[key := JString(t)])
         case None => Err(BadTimestamp(key)))
      case _ => Err(BadTimestamp(key))
  }

  /** The fields a listing's loop may rewrite. */
  function DateFields(kind: Listing): set<string>
  {
    match kind
    case UserListing => {"joined_at"}
    case DeviceListing => {"registered_at", "last_upload"}
    case MessageListing => {"timestamp"}
  }

  /**
   * The date fields one iteration rewrites in `rec`: those present, and for
   * `last_upload` only when its value is truthy.
   */
  function Rewritten(kind: Listing, rec: Record): set<string>
  {
    set k | k in DateFields(kind) && k in rec && (k == "last_upload" ==> Truthy(rec[k]))
  }

  /** `fromisoformat` accepts `v`: it is a string that `reformat` parses. */
  predicate Parses(v: Json, reformat: string -> Option<string>)
  {
    v.JString? && reformat(v.s).Some?
  }

  /**
   * The body of one loop iteration, for the record `rec` of the given listing.
   * It succeeds exactly when every rewritten field parses, and then rewrites
   * those fields and nothing else; a device fails on `registered_at` before
   * `last_upload` is looked at.
   */
  function FormatRecord(kind: Listing, rec: Record, reformat: string -> Option<string>): (r: Result<Record>)
    ensures r.Ok? <==> forall k :: k in Rewritten(kind, rec) ==> Parses(rec[k], reformat)
    ensures r.Ok? ==> r.value.Keys == rec.Keys
    ensures r.Ok? ==> forall k :: k in rec ==>
      r.value[k] == if k in Rewritten(kind, rec) then JString(reformat(rec[k].s).value) else rec[k]
    ensures r.Err? ==> exists k :: k in Rewritten(kind, rec) && r.error == BadTimestamp(k)
    ensures kind == DeviceListing && "registered_at" in rec && !Parses(rec["registered_at"], reformat) ==>
      r == Err(BadTimestamp("registered_at"))
  {
    match kind
    case UserListing => ReformatKey(rec, "joined_at", reformat)
    case MessageListing => ReformatKey(rec, "timestamp", reformat)
    case DeviceListing =>
      match ReformatKey(rec, "registered_at", reformat)
      case Err(e) => Err(e)
      case Ok(rec') =>
        // `last_upload` is only touched when present and truthy
        if "last_upload" in rec' && Truthy(rec'["last_upload"])
        then ReformatKey(rec', "last_upload", reformat)
        else Ok(rec')
  }

  /**
   * One iteration keeps the record's keys and changes only its date fields;
   * a falsy `last_upload` is left as it is.
   */
  lemma FormatRecordTouchesOnlyDates(kind: Listing, rec: Record, reformat: string -> Option<string>)
    requires FormatRecord(kind, rec, reformat).Ok?
    ensures FormatRecord(kind, rec, reformat).value.Keys == rec.Keys
    ensures forall k :: k in rec && k !in DateFields(kind) ==>
      FormatRecord(kind, rec, reformat).value[k] == rec[k]
    ensures kind == DeviceListing && "last_upload" in rec && !Truthy(rec["last_upload"]) ==>
      FormatRecord(kind, rec, reformat).value["last_upload"] == rec["last_upload"]
  {
  }

  /**
   * The loop over a whole listing, left to right: the reformatted records,
   * or the failure of the first record that raises.
   */
  function FormatAll(kind: Listing, rs: seq<Record>, reformat: string -> Option<string>): Result<seq<Record>>
  {
    if rs == [] then Ok([])
    else
      match FormatAll(kind, rs[..|rs| - 1], reformat)
      case Err(e) => Err(e)
      case Ok(done) =>
        match FormatRecord(kind, rs[|rs| - 1], reformat)
        case Err(e) => Err(e)
        case Ok(last) => Ok(done + [last])
  }

  /** Once a prefix has raised, the rest of the listing is never looked at. */
  lemma {:induction false} FormatAllStopsAtFailure(kind: Listing, xs: seq<Record>, ys: seq<Record>,
                                                    reformat: string -> Option<string>)
    requires FormatAll(kind, xs, reformat).Err?
    ensures FormatAll(kind, xs + ys, reformat) == FormatAll(kind, xs, reformat)
  {
    if ys == [] {
      assert xs + ys == xs;
    } else {
      FormatAllStopsAtFailure(kind, xs, ys[..|ys| - 1], reformat);
      assert (xs + ys)[..|xs + ys| - 1] == xs + ys[..|ys| - 1];
    }
  }

  /**
   * The listing formats exactly when every record does, and then the result
   * is the records reformatted one by one, in the same order.
   */
  lemma {:induction false} FormatAllPointwise(kind: Listing, rs: seq<Record>, reformat: string -> Option<string>)
    ensures FormatAll(kind, rs, reformat).Ok? <==>
      forall k :: 0 <= k < |rs| ==> FormatRecord(kind, rs[k], reformat).Ok?
    ensures FormatAll(kind, rs, reformat).Ok? ==>
      |FormatAll(kind, rs, reformat).value| == |rs| &&
      forall k :: 0 <= k < |rs| ==>
        FormatAll(kind, rs, reformat).value[k] == FormatRecord(kind, rs[k], reformat).value
  {
    if rs != [] {
      var init := rs[..|rs| - 1];
      FormatAllPointwise(kind, init, reformat);
      assert forall k :: 0 <= k < |init| ==> init[k] == rs[k];
    }
  }

  /** The `for` loop of users_page, devices_page or messages_page, run on a listing. */
  method FormatListing(kind: Listing, rs: seq<Record>, reformat: string -> Option<string>)
    returns (r: Result<seq<Record>>)
    ensures r == FormatAll(kind, rs, reformat)
  {
    var done: seq<Record> := [];
    var i := 0;
    while i < |rs|
      invariant 0 <= i <= |rs|
      invariant FormatAll(kind, rs[..i], reformat) == Ok(done)
    {
      assert rs[..i + 1][..i] == rs[..i];
      match FormatRecord(kind, rs[i], reformat) {
        case Err(e) =>
          assert FormatAll(kind, rs[..i + 1], reformat) == Err(e);
          FormatAllStopsAtFailure(kind, rs[..i + 1], rs[i + 1..], reformat);
          assert rs[..i + 1] + rs[i + 1..] == rs;
          return Err(e);
        case Ok(rec) =>
          done := done + [rec];
      }
      i := i + 1;
    }
    assert rs[..i] == rs;
    return Ok(done);
  }
}
