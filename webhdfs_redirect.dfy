/** The second hop of a transfer: the coordinating node answers with a
    `Location` header, and the client cuts the header's network location
    into host and port at the first `:` and sends the rest of the request
    to `path + "?" + query` on that host. */
module WebHdfsRedirect {
  import opened Wrappers
  import opened Text
  import opened Python

  /** The components `urlparse` gives for a `Location` header. Only the
      network location, the path and the query are used. */
  datatype UrlParts = UrlParts(scheme: string, netloc: string, path: string, query: string)

  /** Where the second request goes. The port stays text, as the client
      hands it on. */
  datatype Redirect = Redirect(host: string, port: string, path: string)

  /** `netloc.index(":")` raises this when there is no colon. */
  const NoColon: PyError := ValueError("substring not found")

  /** Host and port of a network location: everything before the first `:`
      and everything after it. */
  function SplitNetloc(netloc: string): (r: Result<(string, string), PyError>)
    ensures r.Ok? <==> ':' in netloc
    ensures r.Ok? ==> r.value.0 + ":" + r.value.1 == netloc && ':' !in r.value.0
    ensures r.Err? ==> r.error == NoColon
  {
    match IndexOf(netloc, ':')
    case None => Err(NoColon)
    case Some(i) =>
      assert netloc == netloc[..i] + ":" + netloc[i + 1..];
      Ok((netloc[..i], netloc[i + 1..]))
  }

  /** The split is the only one with a colon-free host: a host without `:`
      and any port (which may itself hold colons) come back unchanged. */
  lemma SplitNetlocJoin(host: string, port: string)
    requires ':' !in host
    ensures SplitNetloc(host + ":" + port) == Ok((host, port))
  {
    var netloc := host + ":" + port;
    IndexOfJoined(host, ':', port);
    assert netloc[..|host|] == host;
    assert netloc[|host| + 1..] == port;
  }

  /** The path of the second request. The `?` is always there, even when the
      query is empty. */
  function RedirectPath(parts: UrlParts): (p: string)
    ensures '?' in p
    ensures |p| == |parts.path| + 1 + |parts.query|
  {
    var p := parts.path + "?" + parts.query;
    assert p[|parts.path|] == '?';
    p
  }

  /** A path without `?` and the query can be read back from the redirect path. */
  lemma RedirectPathSplit(parts: UrlParts)
    requires '?' !in parts.path
    ensures IndexOf(RedirectPath(parts), '?') == Some(|parts.path|)
    ensures RedirectPath(parts)[..|parts.path|] == parts.path
    ensures RedirectPath(parts)[|parts.path| + 1..] == parts.query
  {
    IndexOfJoined(parts.path, '?', parts.query);
  }

  /** Host, port and path of the second request, or the error of the split. */
  function RedirectOf(parts: UrlParts): (r: Result<Redirect, PyError>)
    ensures r.Ok? <==> ':' in parts.netloc
    ensures r.Ok? ==> r.value.host + ":" + r.value.port == parts.netloc && ':' !in r.value.host
    ensures r.Ok? ==> r.value.path == parts.path + "?" + parts.query
    ensures r.Err? ==> r.error == NoColon
  {
    var hostPort :- SplitNetloc(parts.netloc);
    Ok(Redirect(hostPort.0, hostPort.1, RedirectPath(parts)))
  }
}
