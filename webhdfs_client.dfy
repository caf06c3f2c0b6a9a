/** The WebHDFS client: one request to the coordinating node for the
    metadata operations, two hops (coordinator, then the data node its
    `Location` names) for uploads and downloads. The network is a server
    function from requests to responses with a log of what was sent; the
    local file system is a map from paths to bytes. */
module WebHdfsClient {
  import opened Wrappers
  import opened Text
  import opened Python
  import opened WebHdfsUrl
  import opened WebHdfsRedirect
  import opened WebHdfsResponse

  datatype Verb = GET | PUT | POST | DELETE

  datatype HttpRequest = HttpRequest(verb: Verb, host: string, port: string, url: string, body: seq<byte>)

  /** Every node of the cluster, seen from the client: the answer to each request. */
  type Server = HttpRequest -> Response

  /** The coordinating node and the user a client talks as. */
  datatype NameNode = NameNode(host: string, port: string, user: string)

  /** Bytes asked for by each read of a download. */
  const RcvBufSize: nat := 1024 * 1024

  /** What an operation returns and the requests it sent, in order. */
  datatype Outcome<T> = Outcome(result: Result<T, PyError>, sent: seq<HttpRequest>)

  /** A download also leaves the local files behind. */
  datatype Download = Download(result: Result<(), PyError>, sent: seq<HttpRequest>, files: map<string, seq<byte>>)

  // ---------------------------------------------------------------------
  // Requests

  /** The method each operation sends to the coordinating node. */
  function VerbOf(op: Operation): Verb {
    match op
    case MkDirs(_) => PUT
    case Delete(_, _) => DELETE
    case Create(_, _, _) => PUT
    case Append(_) => POST
    case _ => GET
  }

  function CoordinatorRequest(node: NameNode, op: Operation): (req: HttpRequest)
    ensures req.host == node.host && req.port == node.port && req.body == [] && req.verb == VerbOf(op)
  {
    HttpRequest(VerbOf(op), node.host, node.port, OperationUrl(op, node.user), [])
  }

  /** The request to the node a redirect names. */
  function SecondHop(verb: Verb, redirect: Redirect, body: seq<byte>): HttpRequest {
    HttpRequest(verb, redirect.host, redirect.port, redirect.path, body)
  }

  // ---------------------------------------------------------------------
  // Specification of each operation

  /** `mkDir` and `delete`: one request, then the status check. */
  function CommandSpec(serve: Server, node: NameNode, op: Operation): (o: Outcome<()>)
    ensures o.sent == [CoordinatorRequest(node, op)]
    ensures o.result.Err? <==> serve(o.sent[0]).status >= 400
  {
    var req := CoordinatorRequest(node, op);
    Outcome(CheckResponseError(Some(serve(req))), [req])
  }

  /** The read-only operations: one GET whose body is decoded, then checked. */
  function QuerySpec(serve: Server, loads: Loads, node: NameNode, op: Operation): (o: Outcome<Value>)
    requires VerbOf(op) == GET
    ensures o.sent == [CoordinatorRequest(node, op)] && o.sent[0].verb == GET
    ensures o.result == JsonReply(loads, serve(o.sent[0]))
  {
    var req := CoordinatorRequest(node, op);
    Outcome(JsonReply(loads, serve(req)), [req])
  }

  /** `copyToHDFS` (`op` a Create, PUT) and `appendToHDFS` (`op` an Append,
      POST): ask the coordinator, follow its `Location` without looking at
      its status, send the local file there, and check that answer. */
  function UploadSpec(serve: Server, node: NameNode, op: Operation, source: string,
                      files: map<string, seq<byte>>): (o: Outcome<()>)
    requires op.Create? || op.Append?
    ensures 1 <= |o.sent| <= 2 && o.sent[0] == CoordinatorRequest(node, op)
    ensures forall k :: 0 <= k < |o.sent| ==> o.sent[k].verb == VerbOf(op)
    ensures |o.sent| == 2 ==> source in files && o.sent[1].body == files[source]
                              && o.result == CheckResponseError(Some(serve(o.sent[1])))
    ensures var location := serve(CoordinatorRequest(node, op)).location;
      location.Some? && ':' in location.value.netloc && source in files ==>
        |o.sent| == 2
        && o.sent[1].host + ":" + o.sent[1].port == location.value.netloc && ':' !in o.sent[1].host
        && o.sent[1].url == location.value.path + "?" + location.value.query
        && o.sent[1].body == files[source]
        && (o.result.Err? <==> serve(o.sent[1]).status >= 400)
  {
    var first := CoordinatorRequest(node, op);
    var response := serve(first);
    match response.location
    case None => Outcome(Err(KeyError("location")), [first])
    case Some(location) =>
      match RedirectOf(location)
      case Err(e) => Outcome(Err(e), [first])
      case Ok(redirect) =>
        if source !in files then Outcome(Err(IOError(source)), [first])
        else
          var second := SecondHop(VerbOf(op), redirect, files[source]);
          Outcome(CheckResponseError(Some(serve(second))), [first, second])
  }

  function AlreadyExists(target: string): PyError {
    WebHDFSError("File '" + target + "' already exists")
  }

  /** `copyFromHDFS`: refuse an existing target unless overwriting; ask the
      coordinator; with no length, create an empty target and check the
      coordinator's answer; otherwise fetch from the redirect, store the body
      and check the data node's answer. */
  function DownloadSpec(serve: Server, node: NameNode, source: string, target: string, overwrite: bool,
                        files: map<string, seq<byte>>): (d: Download)
    ensures |d.sent| <= 2
    ensures d.sent != [] ==> d.sent[0] == CoordinatorRequest(node, Open(source))
    ensures forall k :: 0 <= k < |d.sent| ==> d.sent[k].verb == GET && d.sent[k].body == []
    ensures d.sent == [] ==> d.files == files
    ensures forall p :: p in files && p != target ==> p in d.files && d.files[p] == files[p]
    ensures forall p :: p in d.files ==> p in files || p == target
  {
    if target in files && !overwrite then Download(Err(AlreadyExists(target)), [], files)
    else
      var first := CoordinatorRequest(node, Open(source));
      var response := serve(first);
      if response.length.None? then
        Download(CheckResponseError(Some(response)), [first], files[target := []])
      else
        match response.location
        case None => Download(Err(KeyError("location")), [first], files)
        case Some(location) =>
          match RedirectOf(location)
          case Err(e) => Download(Err(e), [first], files)
          case Ok(redirect) =>
            var second := SecondHop(GET, redirect, []);
            var data := serve(second);
            Download(CheckResponseError(Some(data)), [first, second], files[target := data.body])
  }

  // ---------------------------------------------------------------------
  // Properties of the transfers

  /** An existing target without `overwrite` fails before any request and
      leaves the files alone. */
  lemma DownloadRefusesOverwrite(serve: Server, node: NameNode, source: string, target: string,
                                 files: map<string, seq<byte>>)
    requires target in files
    ensures DownloadSpec(serve, node, source, target, false, files)
         == Download(Err(AlreadyExists(target)), [], files)
  {
  }

  /** An empty remote file: the target is created or truncated to nothing,
      only the coordinator is asked, and its answer is the one checked. */
  lemma DownloadEmptyFile(serve: Server, node: NameNode, source: string, target: string, overwrite: bool,
                          files: map<string, seq<byte>>)
    requires target !in files || overwrite
    requires serve(CoordinatorRequest(node, Open(source))).length.None?
    ensures var d := DownloadSpec(serve, node, source, target, overwrite, files);
      d.sent == [CoordinatorRequest(node, Open(source))]
      && d.files == files[target := []]
      && d.result == CheckResponseError(Some(serve(CoordinatorRequest(node, Open(source)))))
  {
  }

  /** A download that reaches the data node stores whatever body it
      answers, error page included, before its status is checked; the
      second request goes to the host before the first `:` of the redirect,
      the port after it, and the redirect's path and query. */
  lemma DownloadStoresBody(serve: Server, node: NameNode, source: string, target: string, overwrite: bool,
                           files: map<string, seq<byte>>)
    requires target !in files || overwrite
    requires serve(CoordinatorRequest(node, Open(source))).length.Some?
    requires serve(CoordinatorRequest(node, Open(source))).location.Some?
    requires ':' in serve(CoordinatorRequest(node, Open(source))).location.value.netloc
    ensures var d := DownloadSpec(serve, node, source, target, overwrite, files);
      var location := serve(CoordinatorRequest(node, Open(source))).location.value;
      |d.sent| == 2 && d.sent[0] == CoordinatorRequest(node, Open(source))
      && d.sent[1].host + ":" + d.sent[1].port == location.netloc && ':' !in d.sent[1].host
      && d.sent[1].url == location.path + "?" + location.query
      && d.files[target] == serve(d.sent[1]).body
      && (d.result.Err? <==> serve(d.sent[1]).status >= 400)
  {
  }

  /** A missing `Location` raises KeyError after the first request. */
  lemma MissingLocation(serve: Server, node: NameNode, op: Operation, source: string, target: string,
                        overwrite: bool, files: map<string, seq<byte>>)
    requires op.Create? || op.Append?
    requires serve(CoordinatorRequest(node, op)).location.None?
    ensures UploadSpec(serve, node, op, source, files)
         == Outcome(Err(KeyError("location")), [CoordinatorRequest(node, op)])
    ensures target !in files || overwrite ==>
      serve(CoordinatorRequest(node, Open(source))).length.Some? ==>
      serve(CoordinatorRequest(node, Open(source))).location.None? ==>
      DownloadSpec(serve, node, source, target, overwrite, files)
        == Download(Err(KeyError("location")), [CoordinatorRequest(node, Open(source))], files)
  {
  }

  /** A `Location` whose network location holds no `:` raises ValueError
      after the first request, on uploads and on downloads alike. */
  lemma LocationWithoutPort(serve: Server, node: NameNode, op: Operation, source: string, target: string,
                            overwrite: bool, files: map<string, seq<byte>>)
    requires op.Create? || op.Append?
    requires serve(CoordinatorRequest(node, op)).location.Some?
    requires ':' !in serve(CoordinatorRequest(node, op)).location.value.netloc
    ensures UploadSpec(serve, node, op, source, files) == Outcome(Err(NoColon), [CoordinatorRequest(node, op)])
    ensures target !in files || overwrite ==>
      serve(CoordinatorRequest(node, Open(source))).length.Some? ==>
      serve(CoordinatorRequest(node, Open(source))).location.Some? ==>
      ':' !in serve(CoordinatorRequest(node, Open(source))).location.value.netloc ==>
      DownloadSpec(serve, node, source, target, overwrite, files)
        == Download(Err(NoColon), [CoordinatorRequest(node, Open(source))], files)
  {
  }

  /** A missing local source is found only after the coordinator was asked. */
  lemma UploadMissingSource(serve: Server, node: NameNode, op: Operation, source: string,
                            files: map<string, seq<byte>>)
    requires op.Create? || op.Append?
    requires serve(CoordinatorRequest(node, op)).location.Some?
    requires ':' in serve(CoordinatorRequest(node, op)).location.value.netloc
    requires source !in files
    ensures UploadSpec(serve, node, op, source, files)
         == Outcome(Err(IOError(source)), [CoordinatorRequest(node, op)])
  {
  }

  /** The coordinator's status is never checked on an upload: even an
      error answer with a usable `Location` sends the file on, and only the
      data node's answer decides the outcome. */
  lemma UploadIgnoresCoordinatorStatus(serve: Server, node: NameNode, op: Operation, source: string,
                                       files: map<string, seq<byte>>)
    requires op.Create? || op.Append?
    requires serve(CoordinatorRequest(node, op)).status >= 400
    requires serve(CoordinatorRequest(node, op)).location.Some?
    requires ':' in serve(CoordinatorRequest(node, op)).location.value.netloc
    requires source in files
    ensures var o := UploadSpec(serve, node, op, source, files);
      |o.sent| == 2 && o.sent[1].body == files[source]
      && (o.result.Err? <==> serve(o.sent[1]).status >= 400)
  {
  }

  /** The first hop of an upload names the operation and the user. */
  lemma UploadFirstHop(serve: Server, node: NameNode, op: Operation, source: string,
                       files: map<string, seq<byte>>)
    requires op.Create? || op.Append?
    requires '?' !in PathOf(op) && '&' !in node.user
    ensures ParseUrl(UploadSpec(serve, node, op, source, files).sent[0].url) == Some((op, node.user))
  {
    ParseUrlRoundTrip(op, node.user);
  }

  /** `copyToHDFS` uses PUT for both hops, and its first hop names the
      replication factor and the overwrite flag. */
  lemma CopyToHdfsRequests(serve: Server, node: NameNode, path: string, overwrite: bool, replication: int,
                           source: string, files: map<string, seq<byte>>)
    requires '?' !in path && '&' !in node.user
    ensures var o := UploadSpec(serve, node, Create(path, overwrite, replication), source, files);
      (forall k :: 0 <= k < |o.sent| ==> o.sent[k].verb == PUT)
      && ParseUrl(o.sent[0].url) == Some((Create(path, overwrite, replication), node.user))
  {
    UploadFirstHop(serve, node, Create(path, overwrite, replication), source, files);
  }

  /** `appendToHDFS` uses POST for both hops. */
  lemma AppendToHdfsRequests(serve: Server, node: NameNode, path: string,
                             source: string, files: map<string, seq<byte>>)
    requires '?' !in path && '&' !in node.user
    ensures var o := UploadSpec(serve, node, Append(path), source, files);
      (forall k :: 0 <= k < |o.sent| ==> o.sent[k].verb == POST)
      && ParseUrl(o.sent[0].url) == Some((Append(path), node.user))
  {
    UploadFirstHop(serve, node, Append(path), source, files);
  }

  // ---------------------------------------------------------------------
  // The stateful parts

  /** The nodes of the cluster and the log of every request sent to them. */
  class Cluster {
    const serve: Server
    var sent: seq<HttpRequest>

    constructor(serve: Server)
      ensures this.serve == serve && sent == []
    {
      this.serve := serve;
      sent := [];
    }

    /** Sends one request and waits for its response. */
    method Exchange(request: HttpRequest) returns (response: Response)
      modifies this
      ensures sent == old(sent) + [request]
      ensures response == serve(request)
    {
      sent := sent + [request];
      response := serve(request);
    }
  }

  /** The local file system: file contents by path. */
  class LocalDisk {
    var files: map<string, seq<byte>>

    constructor(files: map<string, seq<byte>>)
      ensures this.files == files
    {
      this.files := files;
    }
  }

  /** The unread part of a response body. */
  class BodyStream {
    var unread: seq<byte>

    constructor(body: seq<byte>)
      ensures unread == body
    {
      unread := body;
    }

    /** `response.read(amt)`: the next `amt` bytes, or all that is left. */
    method Read(amt: nat) returns (chunk: seq<byte>)
      modifies this
      ensures |chunk| == if amt < |old(unread)| then amt else |old(unread)|
      ensures old(unread) == chunk + unread
    {
      var n := if amt < |unread| then amt else |unread|;
      chunk := unread[..n];
      unread := unread[n..];
    }
  }

  /** A client bound to one coordinating node and user. */
  class WebHdfs {
    const namenodeHost: string
    const namenodePort: string
    const username: string
    const cluster: Cluster
    const disk: LocalDisk
    const loads: Loads

    constructor(namenodeHost: string, namenodePort: string, username: string,
                cluster: Cluster, disk: LocalDisk, loads: Loads)
      ensures this.namenodeHost == namenodeHost && this.namenodePort == namenodePort
      ensures this.username == username && this.cluster == cluster && this.disk == disk
      ensures this.loads == loads
    {
      this.namenodeHost := namenodeHost;
      this.namenodePort := namenodePort;
      this.username := username;
      this.cluster := cluster;
      this.disk := disk;
      this.loads := loads;
    }

    function Node(): NameNode {
      NameNode(namenodeHost, namenodePort, username)
    }

    method Command(op: Operation) returns (r: Result<(), PyError>)
      requires op.MkDirs? || op.Delete?
      modifies cluster
      ensures var o := CommandSpec(cluster.serve, Node(), op);
        r == o.result && cluster.sent == old(cluster.sent) + o.sent
    {
      var response := cluster.Exchange(CoordinatorRequest(Node(), op));
      r := CheckResponseError(Some(response));
    }

    method MkDir(path: string) returns (r: Result<(), PyError>)
      modifies cluster
      ensures var o := CommandSpec(cluster.serve, Node(), MkDirs(path));
        r == o.result && cluster.sent == old(cluster.sent) + o.sent
    {
      r := Command(MkDirs(path));
    }

    method Delete(path: string, recursive: bool) returns (r: Result<(), PyError>)
      modifies cluster
      ensures var o := CommandSpec(cluster.serve, Node(), WebHdfsUrl.Delete(path, recursive));
        r == o.result && cluster.sent == old(cluster.sent) + o.sent
    {
      r := Command(WebHdfsUrl.Delete(path, recursive));
    }

    /** `rmDir(p)` is `delete(p, recursive=True)`. */
    method RmDir(path: string) returns (r: Result<(), PyError>)
      modifies cluster
      ensures var o := CommandSpec(cluster.serve, Node(), WebHdfsUrl.Delete(path, true));
        r == o.result && cluster.sent == old(cluster.sent) + o.sent
    {
      r := Delete(path, true);
    }

    method Upload(op: Operation, source: string) returns (r: Result<(), PyError>)
      requires op.Create? || op.Append?
      modifies cluster
      ensures var o := UploadSpec(cluster.serve, Node(), op, source, disk.files);
        r == o.result && cluster.sent == old(cluster.sent) + o.sent
    {
      var response := cluster.Exchange(CoordinatorRequest(Node(), op));
      if response.location.None? {
        return Err(KeyError("location"));
      }
      var redirect := RedirectOf(response.location.value);
      if redirect.Err? {
        return Err(redirect.error);
      }
      if source !in disk.files {
        return Err(IOError(source));
      }
      response := cluster.Exchange(SecondHop(VerbOf(op), redirect.value, disk.files[source]));
      r := CheckResponseError(Some(response));
    }

    method CopyToHdfs(source: string, target: string, replication: int, overwrite: bool)
      returns (r: Result<(), PyError>)
      modifies cluster
      ensures var o := UploadSpec(cluster.serve, Node(), Create(target, overwrite, replication), source, disk.files);
        r == o.result && cluster.sent == old(cluster.sent) + o.sent
    {
      r := Upload(Create(target, overwrite, replication), source);
    }

    method AppendToHdfs(source: string, target: string) returns (r: Result<(), PyError>)
      modifies cluster
      ensures var o := UploadSpec(cluster.serve, Node(), Append(target), source, disk.files);
        r == o.result && cluster.sent == old(cluster.sent) + o.sent
    {
      r := Upload(Append(target), source);
    }

    /** Writes the body of `response` into `target` one read of at most
        `RcvBufSize` bytes at a time, until a read comes back empty. The
        reads, in order, make up the whole body. */
    method ReceiveInto(response: Response, target: string) returns (chunks: seq<seq<byte>>)
      modifies disk
      ensures disk.files == old(disk.files)[target := response.body]
      ensures Concat(chunks) == response.body
      ensures forall k :: 0 <= k < |chunks| ==> 0 < |chunks[k]| <= RcvBufSize
    {
      var stream := new BodyStream(response.body);
      var written: seq<byte> := [];
      disk.files := disk.files[target := written];
      chunks := [];
      while true
        invariant disk.files == old(disk.files)[target := written]
        invariant written + stream.unread == response.body
        invariant Concat(chunks) == written
        invariant forall k :: 0 <= k < |chunks| ==> 0 < |chunks[k]| <= RcvBufSize
        decreases |stream.unread|
      {
        var chunk := stream.Read(RcvBufSize);
        if |chunk| == 0 {
          assert written == response.body;
          break;
        }
        ConcatAppend(chunks, [chunk]);
        assert Concat([chunk]) == chunk;
        written := written + chunk;
        disk.files := disk.files[target := written];
        chunks := chunks + [chunk];
      }
    }

    method CopyFromHdfs(source: string, target: string, overwrite: bool) returns (r: Result<(), PyError>)
      modifies cluster, disk
      ensures var d := DownloadSpec(cluster.serve, Node(), source, target, overwrite, old(disk.files));
        r == d.result && cluster.sent == old(cluster.sent) + d.sent && disk.files == d.files
    {
      if target in disk.files && !overwrite {
        return Err(AlreadyExists(target));
      }
      var response := cluster.Exchange(CoordinatorRequest(Node(), Open(source)));
      if response.length.Some? {
        if response.location.None? {
          return Err(KeyError("location"));
        }
        var redirect := RedirectOf(response.location.value);
        if redirect.Err? {
          return Err(redirect.error);
        }
        response := cluster.Exchange(SecondHop(GET, redirect.value, []));
        var chunks := ReceiveInto(response, target);
      } else {
        disk.files := disk.files[target := []];
      }
      r := CheckResponseError(Some(response));
    }

    method Query(op: Operation) returns (r: Result<Value, PyError>)
      requires VerbOf(op) == GET
      modifies cluster
      ensures var o := QuerySpec(cluster.serve, loads, Node(), op);
        r == o.result && cluster.sent == old(cluster.sent) + o.sent
    {
      var response := cluster.Exchange(CoordinatorRequest(Node(), op));
      r := JsonReply(loads, response);
    }

    method GetFileStatus(path: string) returns (r: Result<Value, PyError>)
      modifies cluster
      ensures var o := QuerySpec(cluster.serve, loads, Node(), WebHdfsUrl.GetFileStatus(path));
        cluster.sent == old(cluster.sent) + o.sent
        && r == if o.result.Ok? then Ok(FileStatusOf(o.result.value)) else o.result
    {
      r := Query(WebHdfsUrl.GetFileStatus(path));
      if r.Ok? {
        r := Ok(FileStatusOf(r.value));
      }
    }

    method GetHomeDir() returns (r: Result<Value, PyError>)
      modifies cluster
      ensures var o := QuerySpec(cluster.serve, loads, Node(), GetHomeDirectory);
        cluster.sent == old(cluster.sent) + o.sent
        && r == if o.result.Ok? then Ok(HomeDirOf(o.result.value)) else o.result
    {
      r := Query(GetHomeDirectory);
      if r.Ok? {
        r := Ok(HomeDirOf(r.value));
      }
    }

    method ListDirEx(path: string) returns (r: Result<Value, PyError>)
      modifies cluster
      ensures var o := QuerySpec(cluster.serve, loads, Node(), ListStatus(path));
        cluster.sent == old(cluster.sent) + o.sent
        && r == if o.result.Ok? then Ok(ListDirExOf(o.result.value)) else o.result
    {
      r := Query(ListStatus(path));
      if r.Ok? {
        r := Ok(ListDirExOf(r.value));
      }
    }

    method ListDir(path: string) returns (r: Result<seq<Value>, PyError>)
      modifies cluster
      ensures var o := QuerySpec(cluster.serve, loads, Node(), ListStatus(path));
        cluster.sent == old(cluster.sent) + o.sent
        && (r.Ok? <==> o.result.Ok?)
        && (r.Ok? ==> r.value == ListDirOf(o.result.value))
        && (r.Err? ==> r.error == o.result.error)
    {
      var data := Query(ListStatus(path));
      if data.Err? {
        return Err(data.error);
      }
      var files := ListDirFiles(data.value);
      r := Ok(files);
    }
  }
}
