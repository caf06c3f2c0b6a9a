/** What the client makes of an HTTP response: the status check every
    operation ends with, and the JSON answers of the read-only operations,
    unwrapped with an empty fallback when the expected key is missing. */
module WebHdfsResponse {
  import opened Wrappers
  import opened Text
  import opened Python
  import opened WebHdfsRedirect

  newtype byte = b: int | 0 <= b < 256

  /** A response as the client sees it: status line, the `Content-Length`
      (None when the server sent none), the `Location` header already split
      by `urlparse`, and the body. */
  datatype Response = Response(
    status: int,
    reason: string,
    length: Option<int>,
    location: Option<UrlParts>,
    body: seq<byte>)

  // ---------------------------------------------------------------------
  // The status check

  function ErrorMessage(status: int, reason: string): string {
    "HTTP ERROR " + IntToString(status) + ". Reason: " + reason
  }

  /** Fails exactly on a present response whose status is 400 or more, with
      the status and reason in the message. */
  function CheckResponseError(response: Option<Response>): (r: Result<(), PyError>)
    ensures r.Err? <==> response.Some? && response.value.status >= 400
    ensures r.Err? ==> r.error == WebHDFSError(ErrorMessage(response.value.status, response.value.reason))
    ensures r.Ok? ==> r.value == ()
  {
    if response.Some? && response.value.status >= 400 then
      Err(WebHDFSError(ErrorMessage(response.value.status, response.value.reason)))
    else
      Ok(())
  }

  /** Reads status and reason back out of an error message. */
  function ParseErrorMessage(message: string): Option<(int, string)> {
    match After(message, "HTTP ERROR ")
    case None => None
    case Some(rest) =>
      match IndexOf(rest, '.')
      case None => None
      case Some(dot) =>
        match (ParseInt(rest[..dot]), After(rest[dot..], ". Reason: "))
        case (Some(status), Some(reason)) => Some((status, reason))
        case _ => None
  }

  /** The parser cuts at the first `.`, which a run of digits does not hold. */
  lemma ParseErrorParts(digits: string, reason: string)
    requires '.' !in digits
    ensures ParseErrorMessage("HTTP ERROR " + digits + ". Reason: " + reason)
         == if ParseInt(digits).Some? then Some((ParseInt(digits).value, reason)) else None
  {
    var tail := ". Reason: " + reason;
    assert "HTTP ERROR " + digits + ". Reason: " + reason == "HTTP ERROR " + (digits + tail);
    AfterPrefix("HTTP ERROR ", digits + tail);
    assert digits + tail == digits + ['.'] + tail[1..];
    IndexOfJoined(digits, '.', tail[1..]);
    assert (digits + tail)[..|digits|] == digits;
    assert (digits + tail)[|digits|..] == tail;
    AfterPrefix(". Reason: ", reason);
  }

  /** The message of a failed check loses neither the status nor the reason. */
  lemma ErrorMessageRoundTrip(status: int, reason: string)
    ensures ParseErrorMessage(ErrorMessage(status, reason)) == Some((status, reason))
  {
    IntTextAvoids(status, '.');
    ParseErrorParts(IntToString(status), reason);
    IntRoundTrip(status);
  }

  // ---------------------------------------------------------------------
  // JSON answers

  /** `json.loads`, left abstract: None where it raises. */
  type Loads = seq<byte> -> Option<Value>

  const NotJson: PyError := ValueError("No JSON object could be decoded")

  /** The body is decoded before the status is checked, so an error page that
      is not JSON raises the decoder's error and not the status error. */
  function JsonReply(loads: Loads, response: Response): (r: Result<Value, PyError>)
    ensures r.Ok? <==> loads(response.body).Some? && response.status < 400
    ensures r.Ok? ==> r.value == loads(response.body).value
    ensures loads(response.body).None? ==> r == Err(NotJson)
    ensures loads(response.body).Some? && response.status >= 400
         ==> r == Err(WebHDFSError(ErrorMessage(response.status, response.reason)))
  {
    match loads(response.body)
    case None => Err(NotJson)
    case Some(data) =>
      var _ :- CheckResponseError(Some(response));
      Ok(data)
  }

  /** `data[key]`, or `fallback` when the lookup raises for any reason. */
  function Unwrap(data: Value, key: string, fallback: Value): (r: Value)
    ensures data.VDict? && key in Keys(data.entries) ==> Find(data.entries, key) == Some(r)
    ensures !(data.VDict? && key in Keys(data.entries)) ==> r == fallback
  {
    match Subscript(data, key)
    case Ok(v) => v
    case Err(_) => fallback
  }

  /** `getFileStatus`: the `FileStatus` object, or `''`. */
  function FileStatusOf(data: Value): Value {
    Unwrap(data, "FileStatus", VStr(""))
  }

  /** `getHomeDir`: the `Path` string, or `''`. */
  function HomeDirOf(data: Value): Value {
    Unwrap(data, "Path", VStr(""))
  }

  /** `data["FileStatuses"]["FileStatus"]`, the listing of a directory. */
  function Listing(data: Value): (r: Result<Value, PyError>)
    ensures r.Ok? <==>
      data.VDict? && "FileStatuses" in Keys(data.entries)
      && Subscript(Find(data.entries, "FileStatuses").value, "FileStatus").Ok?
  {
    var inner :- Subscript(data, "FileStatuses");
    Subscript(inner, "FileStatus")
  }

  /** `listDirEx`: the listing, or `[]`. */
  function ListDirExOf(data: Value): (r: Value)
    ensures Listing(data).Ok? ==> r == Listing(data).value
    ensures Listing(data).Err? ==> r == VList([])
  {
    match Listing(data)
    case Ok(v) => v
    case Err(_) => VList([])
  }

  /** The reply a coordinating node sends for a directory listing. */
  function ListingReply(statuses: seq<Value>): Value {
    VDict([("FileStatuses", VDict([("FileStatus", VList(statuses))]))])
  }

  lemma ListDirExReply(statuses: seq<Value>)
    ensures ListDirExOf(ListingReply(statuses)) == VList(statuses)
  {
  }

  lemma FileStatusReply(status: Value, path: Value)
    ensures FileStatusOf(VDict([("FileStatus", status)])) == status
    ensures HomeDirOf(VDict([("Path", path)])) == path
    ensures FileStatusOf(VDict([])) == VStr("") && HomeDirOf(VDict([])) == VStr("")
  {
  }

  // ---------------------------------------------------------------------
  // listDir: the path suffixes of the entries, up to the first one the
  // debug line cannot build

  /** An entry whose `type` and `pathSuffix` are both strings: the debug
      line concatenates them before the suffix is collected. */
  predicate WellFormedEntry(e: Value) {
    e.VDict?
    && Find(e.entries, "type").Some? && StringOf(Find(e.entries, "type").value).Some?
    && Find(e.entries, "pathSuffix").Some? && StringOf(Find(e.entries, "pathSuffix").value).Some?
  }

  function SuffixOf(e: Value): Value
    requires WellFormedEntry(e)
  {
    Find(e.entries, "pathSuffix").value
  }

  /** The suffixes of the well-formed entries in front of the first
      malformed one, in server order. */
  function Suffixes(items: seq<Value>): (r: seq<Value>)
    ensures |r| <= |items|
    ensures forall k :: 0 <= k < |r| ==> WellFormedEntry(items[k]) && r[k] == SuffixOf(items[k])
    ensures |r| < |items| ==> !WellFormedEntry(items[|r|])
  {
    if |items| == 0 || !WellFormedEntry(items[0]) then []
    else [SuffixOf(items[0])] + Suffixes(items[1..])
  }

  /** The three properties above pin the suffix list down. */
  lemma {:induction false} SuffixesUnique(items: seq<Value>, r: seq<Value>)
    requires |r| <= |items|
    requires forall k :: 0 <= k < |r| ==> WellFormedEntry(items[k]) && r[k] == SuffixOf(items[k])
    requires |r| < |items| ==> !WellFormedEntry(items[|r|])
    ensures r == Suffixes(items)
  {
    if |r| > 0 {
      SuffixesUnique(items[1..], r[1..]);
    }
  }

  /** What `listDir` returns for a decoded reply: nothing when the listing
      is missing or cannot be iterated. */
  function ListDirOf(data: Value): seq<Value> {
    match Listing(data)
    case Err(_) => []
    case Ok(listing) =>
      match Iterate(listing)
      case Err(_) => []
      case Ok(items) => Suffixes(items)
  }

  /** A listing of well-formed entries gives every suffix, in order. */
  lemma ListDirReply(statuses: seq<Value>)
    requires forall k :: 0 <= k < |statuses| ==> WellFormedEntry(statuses[k])
    ensures |ListDirOf(ListingReply(statuses))| == |statuses|
    ensures forall k :: 0 <= k < |statuses| ==> ListDirOf(ListingReply(statuses))[k] == SuffixOf(statuses[k])
  {
  }

  /** A reply without `FileStatuses` lists nothing. */
  lemma ListDirMissingKey(entries: seq<(string, Value)>)
    requires "FileStatuses" !in Keys(entries)
    ensures ListDirOf(VDict(entries)) == []
    ensures ListDirExOf(VDict(entries)) == VList([])
  {
  }

  /** The lookups the debug line makes succeed exactly on a well-formed
      entry, and the second one yields its suffix. */
  lemma EntryLookups(e: Value)
    ensures WellFormedEntry(e) <==>
      Subscript(e, "type").Ok? && Subscript(e, "pathSuffix").Ok?
      && StringOf(Subscript(e, "type").value).Some? && StringOf(Subscript(e, "pathSuffix").value).Some?
    ensures WellFormedEntry(e) ==> Subscript(e, "pathSuffix").value == SuffixOf(e)
  {
  }

  /** The collecting loop of `listDir`: stops at the first entry the debug
      line raises on, keeping what it has. */
  method CollectSuffixes(items: seq<Value>) returns (files: seq<Value>)
    ensures files == Suffixes(items)
  {
    files := [];
    var i := 0;
    while i < |items|
      invariant 0 <= i <= |items| && |files| == i
      invariant forall k :: 0 <= k < i ==> WellFormedEntry(items[k]) && files[k] == SuffixOf(items[k])
    {
      var entry := items[i];
      var kind := Subscript(entry, "type");
      var suffix := Subscript(entry, "pathSuffix");
      EntryLookups(entry);
      if kind.Err? || suffix.Err? || StringOf(kind.value).None? || StringOf(suffix.value).None? {
        break;
      }
      files := files + [suffix.value];
      i := i + 1;
    }
    SuffixesUnique(items, files);
  }

  /** `listDir`: the suffixes of the listing, or nothing when the reply has
      no listing or the listing cannot be iterated. */
  method ListDirFiles(data: Value) returns (files: seq<Value>)
    ensures files == ListDirOf(data)
  {
    files := [];
    var listing := Listing(data);
    if listing.Err? {
      return;
    }
    var iterated := Iterate(listing.value);
    if iterated.Err? {
      return;
    }
    files := CollectSuffixes(iterated.value);
  }
}
