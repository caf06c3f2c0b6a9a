/** The request URLs of the WebHDFS client: every operation sends
    `/webhdfs/v1<path>?op=<CODE>[&flag=value...]&user.name=<user>` to the
    coordinating node. Nothing in the URL is percent-encoded. */
module WebHdfsUrl {
  import opened Wrappers
  import opened Text

  const ContextRoot: string := "/webhdfs/v1"

  /** One request to the coordinating node, with its operation parameters. */
  datatype Operation =
    | MkDirs(path: string)
    | Delete(path: string, recursive: bool)
    | Create(path: string, overwrite: bool, replication: int)
    | Append(path: string)
    | Open(path: string)
    | GetFileStatus(path: string)
    | ListStatus(path: string)
    | GetHomeDirectory

  function BoolText(b: bool): string {
    if b then "true" else "false"
  }

  // ---------------------------------------------------------------------
  // The URLs as each client method spells them out

  function MkDirUrl(path: string, user: string): string {
    ContextRoot + path + "?op=MKDIRS&user.name=" + user
  }

  function DeleteUrl(path: string, recursive: bool, user: string): string {
    ContextRoot + path + "?op=DELETE&recursive=" + BoolText(recursive) + "&user.name=" + user
  }

  function CreateUrl(path: string, overwrite: bool, replication: int, user: string): string {
    ContextRoot + path + "?op=CREATE&overwrite=" + BoolText(overwrite)
      + "&replication=" + IntToString(replication) + "&user.name=" + user
  }

  function AppendUrl(path: string, user: string): string {
    ContextRoot + path + "?op=APPEND&user.name=" + user
  }

  function OpenUrl(path: string, user: string): string {
    ContextRoot + path + "?op=OPEN&user.name=" + user
  }

  function FileStatusUrl(path: string, user: string): string {
    ContextRoot + path + "?op=GETFILESTATUS&user.name=" + user
  }

  /** Shared by `listDir` and `listDirEx`. */
  function ListStatusUrl(path: string, user: string): string {
    ContextRoot + path + "?op=LISTSTATUS&user.name=" + user
  }

  /** The only URL without a path segment. */
  function HomeDirUrl(user: string): string {
    ContextRoot + "?op=GETHOMEDIRECTORY&user.name=" + user
  }

  // ---------------------------------------------------------------------
  // The common shape of all of them

  function Code(op: Operation): string {
    match op
    case MkDirs(_) => "MKDIRS"
    case Delete(_, _) => "DELETE"
    case Create(_, _, _) => "CREATE"
    case Append(_) => "APPEND"
    case Open(_) => "OPEN"
    case GetFileStatus(_) => "GETFILESTATUS"
    case ListStatus(_) => "LISTSTATUS"
    case GetHomeDirectory => "GETHOMEDIRECTORY"
  }

  function PathOf(op: Operation): string {
    if op.GetHomeDirectory? then "" else op.path
  }

  /** The operation-specific `key=value` parameters, between `op` and `user.name`. */
  function Flags(op: Operation): seq<string> {
    match op
    case Delete(_, recursive) => ["recursive=" + BoolText(recursive)]
    case Create(_, overwrite, replication) =>
      ["overwrite=" + BoolText(overwrite), "replication=" + IntToString(replication)]
    case _ => []
  }

  /** All `key=value` parameters of the query, in the order they are sent. */
  function QueryParams(op: Operation, user: string): seq<string> {
    ["op=" + Code(op)] + Flags(op) + ["user.name=" + user]
  }

  function Query(op: Operation, user: string): string {
    Join(QueryParams(op, user), "&")
  }

  /** The URL the client sends for `op`. */
  function OperationUrl(op: Operation, user: string): string {
    match op
    case MkDirs(path) => MkDirUrl(path, user)
    case Delete(path, recursive) => DeleteUrl(path, recursive, user)
    case Create(path, overwrite, replication) => CreateUrl(path, overwrite, replication, user)
    case Append(path) => AppendUrl(path, user)
    case Open(path) => OpenUrl(path, user)
    case GetFileStatus(path) => FileStatusUrl(path, user)
    case ListStatus(path) => ListStatusUrl(path, user)
    case GetHomeDirectory => HomeDirUrl(user)
  }

  lemma JoinPlain(code: string, user: string)
    ensures Join(["op=" + code, "user.name=" + user], "&") == "op=" + code + "&user.name=" + user
  {
  }

  lemma JoinOneFlag(code: string, flag: string, user: string)
    ensures Join(["op=" + code, flag, "user.name=" + user], "&") == "op=" + code + "&" + flag + "&user.name=" + user
  {
    var head, tail := "op=" + code, "user.name=" + user;
    var texts := [head, flag, tail];
    assert texts[1..] == [flag, tail];
    assert texts[1..][1..] == [tail];
    assert Join([flag, tail], "&") == flag + "&" + tail;
    assert "&user.name=" + user == "&" + tail;
  }

  lemma JoinTwoFlags(code: string, f1: string, f2: string, user: string)
    ensures Join(["op=" + code, f1, f2, "user.name=" + user], "&")
         == "op=" + code + "&" + f1 + "&" + f2 + "&user.name=" + user
  {
    var head, tail := "op=" + code, "user.name=" + user;
    var texts := [head, f1, f2, tail];
    assert texts[1..] == [f1, f2, tail];
    assert texts[1..][1..] == [f2, tail];
    assert texts[1..][1..][1..] == [tail];
    assert Join([f2, tail], "&") == f2 + "&" + tail;
    assert Join([f1, f2, tail], "&") == f1 + "&" + (f2 + "&" + tail);
    assert "&user.name=" + user == "&" + tail;
  }

  /** A URL spelled with the literal `lit` for `?op=<code>&user.name=` is its
      prefix (the root and the path), `?` and the joined parameters. */
  lemma PlainForm(prefix: string, lit: string, code: string, user: string)
    requires lit == "?op=" + code + "&user.name="
    ensures prefix + lit + user == prefix + "?" + Join(["op=" + code, "user.name=" + user], "&")
  {
    JoinPlain(code, user);
    var j := "op=" + code + "&user.name=" + user;
    assert "?" + j == lit + user;
  }

  lemma OneFlagForm(root: string, path: string, lit: string, code: string, key: string, val: string, user: string)
    requires lit == "?op=" + code + "&" + key
    ensures root + path + lit + val + "&user.name=" + user
         == root + path + "?" + Join(["op=" + code, key + val, "user.name=" + user], "&")
  {
    JoinOneFlag(code, key + val, user);
    var j := "op=" + code + "&" + (key + val) + "&user.name=" + user;
    assert "?" + j == lit + val + "&user.name=" + user;
  }

  lemma TwoFlagForm(root: string, path: string, lit1: string, lit2: string, code: string,
                    k1: string, v1: string, k2: string, v2: string, user: string)
    requires lit1 == "?op=" + code + "&" + k1
    requires lit2 == "&" + k2
    ensures root + path + lit1 + v1 + lit2 + v2 + "&user.name=" + user
         == root + path + "?" + Join(["op=" + code, k1 + v1, k2 + v2, "user.name=" + user], "&")
  {
    JoinTwoFlags(code, k1 + v1, k2 + v2, user);
    var j := "op=" + code + "&" + (k1 + v1) + "&" + (k2 + v2) + "&user.name=" + user;
    assert "?" + j == lit1 + v1 + lit2 + v2 + "&user.name=" + user;
  }

  lemma DeleteShape(path: string, recursive: bool, user: string)
    ensures DeleteUrl(path, recursive, user) == ContextRoot + path + "?" + Query(Delete(path, recursive), user)
  {
    var flag := "recursive=" + BoolText(recursive);
    assert QueryParams(Delete(path, recursive), user) == ["op=" + "DELETE", flag, "user.name=" + user];
    OneFlagForm(ContextRoot, path, "?op=DELETE&recursive=", "DELETE", "recursive=", BoolText(recursive), user);
  }

  lemma CreateLiterals()
    ensures "?op=CREATE&overwrite=" == "?op=" + "CREATE" + "&" + "overwrite="
    ensures "&replication=" == "&" + "replication="
  {
  }

  lemma CreateShape(path: string, overwrite: bool, replication: int, user: string)
    ensures CreateUrl(path, overwrite, replication, user)
         == ContextRoot + path + "?" + Query(Create(path, overwrite, replication), user)
  {
    var f1, f2 := "overwrite=" + BoolText(overwrite), "replication=" + IntToString(replication);
    assert QueryParams(Create(path, overwrite, replication), user) == ["op=" + "CREATE", f1, f2, "user.name=" + user];
    CreateLiterals();
    TwoFlagForm(ContextRoot, path, "?op=CREATE&overwrite=", "&replication=", "CREATE",
                "overwrite=", BoolText(overwrite), "replication=", IntToString(replication), user);
  }

  /** The operations without flags: `?op=<CODE>&user.name=<user>`. */
  lemma MkDirsShape(path: string, user: string)
    ensures MkDirUrl(path, user) == ContextRoot + path + "?" + Query(MkDirs(path), user)
  {
    assert QueryParams(MkDirs(path), user) == ["op=" + "MKDIRS", "user.name=" + user];
    PlainForm(ContextRoot + path, "?op=MKDIRS&user.name=", "MKDIRS", user);
  }

  lemma AppendShape(path: string, user: string)
    ensures AppendUrl(path, user) == ContextRoot + path + "?" + Query(Append(path), user)
  {
    assert QueryParams(Append(path), user) == ["op=" + "APPEND", "user.name=" + user];
    PlainForm(ContextRoot + path, "?op=APPEND&user.name=", "APPEND", user);
  }

  lemma OpenShape(path: string, user: string)
    ensures OpenUrl(path, user) == ContextRoot + path + "?" + Query(Open(path), user)
  {
    assert QueryParams(Open(path), user) == ["op=" + "OPEN", "user.name=" + user];
    PlainForm(ContextRoot + path, "?op=OPEN&user.name=", "OPEN", user);
  }

  lemma GetFileStatusShape(path: string, user: string)
    ensures FileStatusUrl(path, user) == ContextRoot + path + "?" + Query(GetFileStatus(path), user)
  {
    assert QueryParams(GetFileStatus(path), user) == ["op=" + "GETFILESTATUS", "user.name=" + user];
    PlainForm(ContextRoot + path, "?op=GETFILESTATUS&user.name=", "GETFILESTATUS", user);
  }

  lemma ListStatusShape(path: string, user: string)
    ensures ListStatusUrl(path, user) == ContextRoot + path + "?" + Query(ListStatus(path), user)
  {
    assert QueryParams(ListStatus(path), user) == ["op=" + "LISTSTATUS", "user.name=" + user];
    PlainForm(ContextRoot + path, "?op=LISTSTATUS&user.name=", "LISTSTATUS", user);
  }

  lemma HomeDirShape(user: string)
    ensures HomeDirUrl(user) == ContextRoot + "?" + Query(GetHomeDirectory, user)
  {
    assert QueryParams(GetHomeDirectory, user) == ["op=" + "GETHOMEDIRECTORY", "user.name=" + user];
    PlainForm(ContextRoot, "?op=GETHOMEDIRECTORY&user.name=", "GETHOMEDIRECTORY", user);
  }

  /** Every client URL is the context root, the path, `?`, then `op=<CODE>`,
      the operation's flags and `user.name=<user>` joined with `&`. */
  lemma UrlShape(op: Operation, user: string)
    ensures OperationUrl(op, user) == ContextRoot + PathOf(op) + "?" + Query(op, user)
  {
    match op {
      case Delete(path, recursive) => DeleteShape(path, recursive, user);
      case Create(path, overwrite, replication) => CreateShape(path, overwrite, replication, user);
      case MkDirs(path) => MkDirsShape(path, user);
      case Append(path) => AppendShape(path, user);
      case Open(path) => OpenShape(path, user);
      case GetFileStatus(path) => GetFileStatusShape(path, user);
      case ListStatus(path) => ListStatusShape(path, user);
      case GetHomeDirectory => HomeDirShape(user);
    }
  }

  // ---------------------------------------------------------------------
  // Reading a URL back: what the coordinating node recovers from it

  function ParseBool(s: string): Option<bool> {
    if s == "true" then Some(true) else if s == "false" then Some(false) else None
  }

  function DecodeDelete(path: string, flags: seq<string>): Option<Operation> {
    if |flags| != 1 then None
    else match After(flags[0], "recursive=")
      case None => None
      case Some(r) =>
        (match ParseBool(r)
         case None => None
         case Some(recursive) => Some(Delete(path, recursive)))
  }

  function DecodeCreate(path: string, flags: seq<string>): Option<Operation> {
    if |flags| != 2 then None
    else match (After(flags[0], "overwrite="), After(flags[1], "replication="))
      case (Some(o), Some(n)) =>
        (match (ParseBool(o), ParseInt(n))
         case (Some(overwrite), Some(replication)) => Some(Create(path, overwrite, replication))
         case _ => None)
      case _ => None
  }

  /** An operation without flags, from its code. */
  function DecodePlain(path: string, code: string): Option<Operation> {
    if code == "MKDIRS" then Some(MkDirs(path))
    else if code == "APPEND" then Some(Append(path))
    else if code == "OPEN" then Some(Open(path))
    else if code == "GETFILESTATUS" then Some(GetFileStatus(path))
    else if code == "LISTSTATUS" then Some(ListStatus(path))
    else if code == "GETHOMEDIRECTORY" && path == "" then Some(GetHomeDirectory)
    else None
  }

  /** The operation named by the `op=` parameter and the flags after it. */
  function DecodeOperation(path: string, code: string, flags: seq<string>): Option<Operation> {
    if code == "DELETE" then DecodeDelete(path, flags)
    else if code == "CREATE" then DecodeCreate(path, flags)
    else if flags == [] then DecodePlain(path, code)
    else None
  }

  /** The operation and user named by the `&`-separated parameters of a query. */
  function DecodeQuery(path: string, params: seq<string>): Option<(Operation, string)> {
    if |params| < 2 then None
    else
      match (After(params[0], "op="), After(params[|params| - 1], "user.name="))
      case (Some(code), Some(user)) =>
        (match DecodeOperation(path, code, params[1..|params| - 1])
         case None => None
         case Some(op) => Some((op, user)))
      case _ => None
  }

  /** The operation and the user a request URL carries. */
  function ParseUrl(url: string): Option<(Operation, string)> {
    match After(url, ContextRoot)
    case None => None
    case Some(rest) =>
      match IndexOf(rest, '?')
      case None => None
      case Some(q) => DecodeQuery(rest[..q], Split(rest[q + 1..], '&'))
  }

  lemma DecodeDeleteFlags(path: string, recursive: bool)
    ensures DecodeOperation(path, "DELETE", ["recursive=" + BoolText(recursive)]) == Some(Delete(path, recursive))
  {
    AfterPrefix("recursive=", BoolText(recursive));
  }

  lemma DecodeCreateFlags(path: string, overwrite: bool, replication: int)
    ensures DecodeOperation(path, "CREATE", ["overwrite=" + BoolText(overwrite), "replication=" + IntToString(replication)])
         == Some(Create(path, overwrite, replication))
  {
    AfterPrefix("overwrite=", BoolText(overwrite));
    AfterPrefix("replication=", IntToString(replication));
    IntRoundTrip(replication);
  }

  lemma DecodeFlags(op: Operation)
    ensures DecodeOperation(PathOf(op), Code(op), Flags(op)) == Some(op)
  {
    if op.Delete? {
      DecodeDeleteFlags(op.path, op.recursive);
    } else if op.Create? {
      DecodeCreateFlags(op.path, op.overwrite, op.replication);
    }
  }

  /** The `op=` parameter holds no `&`. */
  lemma CodeHasNoSeparator(op: Operation)
    ensures '&' !in "op=" + Code(op)
  {
  }

  /** Neither flag of a create holds an `&`. */
  lemma CreateFlagsHaveNoSeparator(overwrite: bool, replication: int)
    ensures '&' !in "overwrite=" + BoolText(overwrite)
    ensures '&' !in "replication=" + IntToString(replication)
  {
    IntTextAvoids(replication, '&');
  }

  /** No flag of any operation holds an `&`. */
  lemma FlagsHaveNoSeparator(op: Operation)
    ensures forall k :: 0 <= k < |Flags(op)| ==> '&' !in Flags(op)[k]
  {
    if op.Create? {
      CreateFlagsHaveNoSeparator(op.overwrite, op.replication);
    }
  }

  lemma ParamsHaveNoSeparator(op: Operation, user: string)
    requires '&' !in user
    ensures forall k :: 0 <= k < |QueryParams(op, user)| ==> '&' !in QueryParams(op, user)[k]
  {
    var head, flags, tail := "op=" + Code(op), Flags(op), "user.name=" + user;
    CodeHasNoSeparator(op);
    FlagsHaveNoSeparator(op);
    assert '&' !in tail;
    var texts := QueryParams(op, user);
    forall k | 0 <= k < |texts|
      ensures '&' !in texts[k]
    {
      if k == 0 {
        assert texts[k] == head;
      } else if k <= |flags| {
        assert texts[k] == flags[k - 1];
      } else {
        assert texts[k] == tail;
      }
    }
  }

  lemma SplitQuery(op: Operation, user: string)
    requires '&' !in user
    ensures Split(Query(op, user), '&') == QueryParams(op, user)
  {
    ParamsHaveNoSeparator(op, user);
    assert "&" == ['&'];
    SplitJoin(QueryParams(op, user), '&');
  }

  lemma DecodeQueryParams(op: Operation, user: string)
    ensures DecodeQuery(PathOf(op), QueryParams(op, user)) == Some((op, user))
  {
    var texts := QueryParams(op, user);
    AfterPrefix("op=", Code(op));
    AfterPrefix("user.name=", user);
    assert texts[0] == "op=" + Code(op);
    assert texts[|texts| - 1] == "user.name=" + user;
    assert texts[1..|texts| - 1] == Flags(op);
    DecodeFlags(op);
  }

  /** Round trip: a URL built by the client names exactly the operation,
      path, flags and user it was built from, as long as the path holds no
      `?` and the user name no `&` (the client escapes neither). In particular
      `recursive=true` appears exactly when `delete` was asked to recurse, and
      `replication=` carries the decimal text of the replication factor. */
  lemma {:induction false} ParseUrlRoundTrip(op: Operation, user: string)
    requires '?' !in PathOf(op)
    requires '&' !in user
    ensures ParseUrl(OperationUrl(op, user)) == Some((op, user))
  {
    UrlShape(op, user);
    ParseUrlForm(PathOf(op), Query(op, user));
    SplitQuery(op, user);
    DecodeQueryParams(op, user);
  }

  /** The parser cuts a URL at its first `?`, so a path without `?` comes back whole. */
  lemma ParseUrlForm(path: string, query: string)
    requires '?' !in path
    ensures ParseUrl(ContextRoot + path + "?" + query) == DecodeQuery(path, Split(query, '&'))
  {
    var rest := path + "?" + query;
    assert ContextRoot + path + "?" + query == ContextRoot + rest;
    AfterPrefix(ContextRoot, rest);
    IndexOfJoined(path, '?', query);
    assert rest[..|path|] == path;
    assert rest[|path| + 1..] == query;
  }
}
