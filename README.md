# WebHDFS client and esri JSON conversion, modelled in Dafny

This project models two pieces of a small Python 2 toolkit.

The first is a WebHDFS client (`webhdfs/webhdfs.py`). Every operation sends
`/webhdfs/v1<path>?op=<CODE>[&flag=value...]&user.name=<user>` to the
coordinating node (the name node). Uploads and downloads then take a second
hop to the data node that the `Location` header of the first answer names.
The client checks the status of the last response, and for the read-only
operations it unwraps a JSON answer with an empty fallback.

The second is the schema and serialisation logic of `JSONUtil.py`, which
converts between esri JSON feature sets and feature classes. It covers:

- the schema guessed from one feature (`_getFCProps`);
- the geometry keyword lookup (`_getGeometryType`);
- the attribute fields a new dataset gets (`_createDataset`);
- the field records written for an existing one (`_dumpFields2JSONStr`);
- the reader of concatenated JSON values (`_iterLoadUnenclosedJSON`);
- the writers `ConvertFC2JSON` and `ConvertFC2JSONUnenclosed`.

## Modules

| file | module | contents |
|---|---|---|
| `wrappers.dfy` | `Wrappers` | `Option`, `Result` |
| `text.dfy` | `Text` | `str(int)` and its inverse; `str.index`; `split` and `join`; `strip`, `lstrip` and `rstrip` with the blanks ` \n\r\t`; concatenation of chunks |
| `python.dfy` | `Python` | Python and JSON values as one datatype, with the type tag (`type(v)`) and exceptions as values. A dict is a list of pairs, so lookup `d[k]`, membership `k in d` and update `d[k] = v` keep Python's meaning. A new key goes at the end of the list, so the model's iteration order is insertion order, which Python 2 does not promise |
| `webhdfs_url.dfy` | `WebHdfsUrl` | each client method's URL as the source spells it, the common shape of all of them, and a parser that reads the operation back |
| `webhdfs_redirect.dfy` | `WebHdfsRedirect` | splitting the `Location` network location into host and port, and the redirect path |
| `webhdfs_response.dfy` | `WebHdfsResponse` | `CheckResponseError`, the JSON replies, the unwrappers and the `listDir` loop |
| `webhdfs_client.dfy` | `WebHdfsClient` | classes for the cluster, the local disk, a response body and the client; one specification function per request sequence |
| `jsonutil_schema.dfy` | `JsonSchema` | `_getFCProps` and `_getGeometryType` |
| `jsonutil_fields.dfy` | `JsonFields` | the field loop of `_createDataset` and `_dumpFields2JSONStr`, and how they fit together |
| `jsonutil_stream.dfy` | `JsonStream` | `_iterLoadUnenclosedJSON`, as written and corrected |
| `jsonutil_writer.dfy` | `JsonWriter` | `ConvertFC2JSON` and `ConvertFC2JSONUnenclosed`, writing the corrected row text of the second finding; the row text as written is beside it |

### How the outside world is represented

- **Network.** The network is a function `Server` from requests to
  responses. The class `Cluster` keeps a log of every request sent, so each
  client method is specified by the requests it sends, in order, and by
  what it returns.
- **Responses.** A response has a status, a reason, an optional length, an
  optional `Location` and a body. The `Location` is already split by
  `urlparse`.
- **Local files.** The local file system is a map from paths to bytes,
  held by `LocalDisk`.
- **JSON and other library functions.** `json.loads`, `json.dumps`,
  `JSONDecoder.raw_decode` and `unicode` of a geometry cell are parameters.
- **arcpy.** What `arcpy.Describe` answers is a `Description` value. A
  search cursor is the sequence of its rows.

## Model

| member | source | states |
|---|---|---|
| `Text.IntToString` | webhdfs/webhdfs.py:74 | `str(i)`: digits only for `i >= 0`; a minus sign followed by digits for `i < 0` |
| `Text.IntRoundTrip` | webhdfs/webhdfs.py:74 | reading the decimal text of any integer back gives that integer |
| `Text.LStrip` | JSONUtil.py:58-65 | `lstrip` drops only blanks from the front, and what it keeps is empty or starts with a non-blank |
| `Text.LStripSuffix` | JSONUtil.py:58-65 | what `lstrip` keeps is a suffix of its argument |
| `Text.RStrip` | JSONUtil.py:58-65 | `rstrip` drops only blanks from the end, and what it keeps is empty or ends with a non-blank |
| `Text.RStripPrefix` | JSONUtil.py:58-65 | what `rstrip` keeps is a prefix of its argument |
| `Python.Subscript` | JSONUtil.py:75 | `d[key]` succeeds exactly on a dict holding `key`, and gives the value stored under it |
| `Python.PutFind` | JSONUtil.py:88 | after `d[key] = val`, `key` maps to `val` and every other key keeps its value |
| `Python.Contains` | JSONUtil.py:73 | `key in d` on a dict is true exactly when `key` is one of its keys |
| `WebHdfsUrl.UrlShape` | webhdfs/webhdfs.py:46-243 | every URL the client builds is `/webhdfs/v1`, then the path (none for `GETHOMEDIRECTORY`), then `?`, then `op=<CODE>`, the operation's flags and `user.name=<user>` joined by `&` |
| `WebHdfsUrl.DeleteShape` | webhdfs/webhdfs.py:58 | the delete URL carries exactly one flag, `recursive=true` or `recursive=false`, from the argument |
| `WebHdfsUrl.CreateShape` | webhdfs/webhdfs.py:73-74 | the create URL carries `overwrite=true/false` from the flag, then `replication=` with the decimal text of the factor |
| `WebHdfsUrl.MkDirsShape` | webhdfs/webhdfs.py:47 | the `mkDir` URL is the root, the path, `?op=MKDIRS` and the user |
| `WebHdfsUrl.AppendShape` | webhdfs/webhdfs.py:100 | the `appendToHDFS` URL is the root, the path, `?op=APPEND` and the user |
| `WebHdfsUrl.OpenShape` | webhdfs/webhdfs.py:130 | the `copyFromHDFS` URL is the root, the path, `?op=OPEN` and the user |
| `WebHdfsUrl.GetFileStatusShape` | webhdfs/webhdfs.py:177 | the `getFileStatus` URL is the root, the path, `?op=GETFILESTATUS` and the user |
| `WebHdfsUrl.ListStatusShape` | webhdfs/webhdfs.py:192 | the `listDir` and `listDirEx` URL is the root, the path, `?op=LISTSTATUS` and the user |
| `WebHdfsUrl.HomeDirShape` | webhdfs/webhdfs.py:232 | the home-directory URL has no path segment |
| `WebHdfsUrl.ParseUrlRoundTrip` | webhdfs/webhdfs.py:46-243 | a server reading any client URL recovers exactly the operation, path, flags and user. This holds when the path has no `?` and the user name no `&`, since neither is escaped |
| `WebHdfsUrl.SplitQuery` | webhdfs/webhdfs.py:58-74 | no query parameter holds a separator, so splitting the query at `&` gives the parameters back |
| `WebHdfsRedirect.SplitNetloc` | webhdfs/webhdfs.py:82-83 | host and port exist exactly when the netloc holds a `:`. Host, `:` and port rebuild the netloc, and the host holds no `:`. Without a colon the result is the `ValueError` of `str.index` |
| `WebHdfsRedirect.SplitNetlocJoin` | webhdfs/webhdfs.py:82-83 | splitting `host:port` for a host without `:` gives back that host and that port, even when the port itself holds colons |
| `WebHdfsRedirect.RedirectPath` | webhdfs/webhdfs.py:85 | the redirect path always holds a `?`, even for an empty query; its length is that of path and query plus one |
| `WebHdfsRedirect.RedirectPathSplit` | webhdfs/webhdfs.py:85 | the first `?` of the redirect path sits just after the path, so path and query can be read back |
| `WebHdfsRedirect.RedirectOf` | webhdfs/webhdfs.py:81-85 | the redirect exists exactly when the netloc has a colon, and then has the host, the port and `path + "?" + query` |
| `WebHdfsResponse.CheckResponseError` | webhdfs/webhdfs.py:262-264 | raises exactly for a present response whose status is 400 or more, with `HTTP ERROR <status>. Reason: <reason>`; otherwise returns unit |
| `WebHdfsResponse.ErrorMessageRoundTrip` | webhdfs/webhdfs.py:264 | the error message gives back the status and the reason it was built from |
| `WebHdfsResponse.JsonReply` | webhdfs/webhdfs.py:181-183 | the body is decoded before the status check. An undecodable body fails as such, whatever the status. A decodable body with status 400 or more raises the status error. Otherwise the decoded value is returned |
| `WebHdfsResponse.Unwrap` | webhdfs/webhdfs.py:185-188 | `data[key]` when data is a dict holding the key, otherwise the fallback |
| `WebHdfsResponse.FileStatusReply` | webhdfs/webhdfs.py:185-188 | `getFileStatus` and `getHomeDir` give the `FileStatus` or `Path` value, or `''` when the key is absent |
| `WebHdfsResponse.ListDirExOf` | webhdfs/webhdfs.py:225-228 | `listDirEx` gives `data["FileStatuses"]["FileStatus"]` when both lookups succeed, otherwise `[]` |
| `WebHdfsResponse.ListDirExReply` | webhdfs/webhdfs.py:225-228 | on a well-formed listing reply, `listDirEx` gives the status array itself |
| `WebHdfsResponse.Suffixes` | webhdfs/webhdfs.py:205-209 | the collected suffixes are those of the entries in front of the first malformed one, in server order. The entry after them, if any, is malformed |
| `WebHdfsResponse.SuffixesUnique` | webhdfs/webhdfs.py:205-209 | those three properties determine the list of suffixes |
| `WebHdfsResponse.EntryLookups` | webhdfs/webhdfs.py:206-207 | the two lookups of the debug line both succeed on strings exactly when the entry is well formed, and the second gives its suffix |
| `WebHdfsResponse.CollectSuffixes` | webhdfs/webhdfs.py:203-209 | the collecting loop stops at the first malformed entry and returns the suffixes collected so far |
| `WebHdfsResponse.ListDirFiles` | webhdfs/webhdfs.py:203-210 | `listDir`'s result for a decoded reply: nothing when the listing is missing or not iterable, otherwise the suffixes |
| `WebHdfsResponse.ListDirReply` | webhdfs/webhdfs.py:203-210 | for a listing of well-formed entries, `listDir` gives one suffix per entry, in server order |
| `WebHdfsResponse.ListDirMissingKey` | webhdfs/webhdfs.py:203-228 | a reply without `FileStatuses` gives `[]` to both `listDir` and `listDirEx` |
| `WebHdfsClient.CoordinatorRequest` | webhdfs/webhdfs.py:49-50 | the first request goes to the coordinating node with an empty body, using PUT, DELETE, POST or GET as each method does |
| `WebHdfsClient.CommandSpec` | webhdfs/webhdfs.py:46-65 | `mkDir` and `delete` send one request and fail exactly on a status of 400 or more |
| `WebHdfsClient.QuerySpec` | webhdfs/webhdfs.py:176-243 | the read-only operations send one GET and return the JSON reply of its response |
| `WebHdfsClient.UploadSpec` | webhdfs/webhdfs.py:72-123 | an upload sends one or two requests, all with the method of the first. A second request carries the whole source file, and only its status decides the result. With a `Location` whose netloc holds a `:` and an existing source, whatever the coordinator's status, it sends exactly that second request: to the host before the first `:`, the port after it, and the redirect's `path?query` |
| `WebHdfsClient.DownloadSpec` | webhdfs/webhdfs.py:126-173 | a download sends at most two GETs with empty bodies, the first being the `OPEN` request to the coordinating node. It changes no local file other than the target, and changes nothing when it sends nothing |
| `WebHdfsClient.DownloadRefusesOverwrite` | webhdfs/webhdfs.py:127-128 | an existing target without `overwrite` raises `File '<target>' already exists` before any request is sent |
| `WebHdfsClient.DownloadEmptyFile` | webhdfs/webhdfs.py:137-173 | a first response without a length sends nothing more. It truncates the target to empty and status-checks that first response |
| `WebHdfsClient.DownloadStoresBody` | webhdfs/webhdfs.py:137-173 | with a length and a usable `Location`, the first GET is the `OPEN` request to the coordinating node and the second goes to the redirect host, port and path. The target ends up holding the second body even when its status is an error, and the result fails exactly on that status |
| `WebHdfsClient.MissingLocation` | webhdfs/webhdfs.py:79 | a first response without `Location` ends an upload, or a non-empty download, with `KeyError('location')` after one request, leaving the files unchanged |
| `WebHdfsClient.LocationWithoutPort` | webhdfs/webhdfs.py:82-83 | a `Location` whose netloc has no `:` ends an upload, or a non-empty download, with the `str.index` error after one request, leaving the files unchanged |
| `WebHdfsClient.UploadMissingSource` | webhdfs/webhdfs.py:91 | a missing source file fails the upload with `IOError` before the second request |
| `WebHdfsClient.UploadIgnoresCoordinatorStatus` | webhdfs/webhdfs.py:77-96 | an error status from the coordinating node does not stop an upload: the file is still sent, and only the data node's status counts |
| `WebHdfsClient.UploadFirstHop` | webhdfs/webhdfs.py:73-76 | the first URL of an upload names exactly the create or append operation and the user |
| `WebHdfsClient.CopyToHdfsRequests` | webhdfs/webhdfs.py:72-96 | `copyToHDFS` uses PUT for both hops, and its first URL names `CREATE` with the given overwrite flag and replication |
| `WebHdfsClient.AppendToHdfsRequests` | webhdfs/webhdfs.py:99-123 | `appendToHDFS` uses POST for both hops, and its first URL names `APPEND` |
| `WebHdfsClient.BodyStream.Read` | webhdfs/webhdfs.py:161 | `read(amt)` returns the next `amt` bytes, or all that is left, and consumes them |
| `WebHdfsClient.WebHdfs.MkDir` | webhdfs/webhdfs.py:46-54 | sends and returns what `CommandSpec` says for `MKDIRS` |
| `WebHdfsClient.WebHdfs.Delete` | webhdfs/webhdfs.py:57-65 | sends and returns what `CommandSpec` says for `DELETE` with the flag |
| `WebHdfsClient.WebHdfs.RmDir` | webhdfs/webhdfs.py:68-69 | exactly what `delete(path, recursive=True)` sends and returns |
| `WebHdfsClient.WebHdfs.CopyToHdfs` | webhdfs/webhdfs.py:72-96 | sends and returns what `UploadSpec` says for `CREATE` |
| `WebHdfsClient.WebHdfs.AppendToHdfs` | webhdfs/webhdfs.py:99-123 | sends and returns what `UploadSpec` says for `APPEND` |
| `WebHdfsClient.WebHdfs.ReceiveInto` | webhdfs/webhdfs.py:157-166 | the download loop: the target ends up holding the whole body. The reads, in order, concatenate to it, and each is nonempty and at most 1 MiB |
| `WebHdfsClient.WebHdfs.CopyFromHdfs` | webhdfs/webhdfs.py:126-173 | sends, writes and returns what `DownloadSpec` says |
| `WebHdfsClient.WebHdfs.GetFileStatus` | webhdfs/webhdfs.py:176-188 | the JSON reply unwrapped at `FileStatus`, or its error |
| `WebHdfsClient.WebHdfs.ListDir` | webhdfs/webhdfs.py:191-210 | the suffixes of the JSON reply, or its error |
| `WebHdfsClient.WebHdfs.ListDirEx` | webhdfs/webhdfs.py:213-228 | the listing of the JSON reply, or `[]`, or its error |
| `WebHdfsClient.WebHdfs.GetHomeDir` | webhdfs/webhdfs.py:231-243 | the JSON reply unwrapped at `Path`, or its error |
| `JsonSchema.GeometryTypeOf` | JSONUtil.py:76-85 | priority order of the keys: `rings` gives a polygon; otherwise `paths` a polyline; otherwise `points` a multipoint; otherwise `x` a point; none of them raises `Unknown geometry type`. Each case is stated in both directions |
| `JsonSchema.InferredFieldType` | JSONUtil.py:105-116 | str or unicode gives String. int or long gives OID for `OBJECTID`, `OID` or `FID`, and Integer otherwise. float gives Double, datetime gives Date. Any other type gives no type. Each case is stated in both directions |
| `JsonSchema.FieldFor` | JSONUtil.py:102-117 | the field of one attribute has the attribute key as name and alias, the inferred type when there is one, no `type` key otherwise, and never a `length` |
| `JsonSchema.AttributeFields` | JSONUtil.py:98-117 | no `attributes` key gives no fields; otherwise it succeeds exactly when `attributes` is a dict, with one field per attribute in the dict's iteration order |
| `JsonSchema.FieldsOfEntries` | JSONUtil.py:101-117 | the appending loop builds that field list |
| `JsonSchema.FcPropsOf` | JSONUtil.py:68-119 | succeeds exactly when both the geometry part and the attribute part succeed; the result is then a dict whose `fields` entry is the attribute field list |
| `JsonSchema.FcPropsGeometry` | JSONUtil.py:73-95 | for a geometry of known type, with absent or dict attributes, the call succeeds: `geometryType` is set; `hasZ` and `hasM` are True exactly when the geometry holds `z` or `m`, and absent otherwise; `spatialReference` is copied verbatim or absent |
| `JsonSchema.FcPropsNoGeometry` | JSONUtil.py:69-73 | without a `geometry` key, and with absent or dict attributes, the call succeeds and the result holds the fields list and nothing else |
| `JsonSchema.FcPropsUnknownGeometry` | JSONUtil.py:84-85 | a geometry with none of the four keys raises `Unknown geometry type` |
| `JsonSchema.SetGeometry` | JSONUtil.py:73-95 | the geometry part of `_getFCProps`, as the statements change the dict |
| `JsonSchema.CollectFields` | JSONUtil.py:98-117 | the attribute part of `_getFCProps` |
| `JsonSchema.FcProps` | JSONUtil.py:68-119 | `_getFCProps` as a whole |
| `JsonSchema.GeometryKeyword` | JSONUtil.py:126-129 | exactly the four esri geometry names have a keyword |
| `JsonSchema.GeometryTypeName` | JSONUtil.py:122-132 | None when `geometryType` is absent; the keyword of a known name; `Unknown geometry type` for anything else |
| `JsonSchema.GeometryTypeNameKnown` | JSONUtil.py:126-129 | a known esri name maps to its keyword |
| `JsonSchema.PropsGeometryKeyword` | JSONUtil.py:68-132 | the schema guessed from a feature always passes the geometry lookup, and yields a keyword exactly when the feature has a geometry |
| `JsonFields.FlagOption` | JSONUtil.py:12-18 | `ENABLED` exactly when the flag is present and truthy, otherwise `DISABLED` |
| `JsonFields.SpatialReferenceOption` | JSONUtil.py:20-24 | None when absent; the value itself when it is not a dict; its `wkid` entry (or `KeyError`) when it is |
| `JsonFields.ShapeOf` | JSONUtil.py:11-28 | no shape for a table; for a feature class, a shape exactly when the M and Z options and the spatial reference can be read, holding those values |
| `JsonFields.TypeSuffix` | JSONUtil.py:33 | slicing off the prefix works on strings and lists and keeps the value's type |
| `JsonFields.PrefixRoundTrip` | JSONUtil.py:33 | slicing `esriFieldType` off `'esriFieldType' + t` gives `t` back |
| `JsonFields.FieldStepCases` | JSONUtil.py:32-39 | a field without `type` raises `KeyError`; an OID field is skipped. Any other field is added with its name, its suffix type (`String` renamed `TEXT`), its length if present and its alias. A skipped non-OID field has an excluded name |
| `JsonFields.FieldStepAdds` | JSONUtil.py:32-39 | a non-OID field whose name is not excluded is added, with the values stated |
| `JsonFields.CollectOk` | JSONUtil.py:32-39 | the loop completes exactly when no field raises |
| `JsonFields.CollectError` | JSONUtil.py:32-39 | the first field that raises decides the error |
| `JsonFields.FieldListOk` | JSONUtil.py:32-39 | the same two facts for the field loop of `_createDataset` |
| `JsonFields.CreateDatasetFields` | JSONUtil.py:32 | a schema without `fields` raises `KeyError`; otherwise the field loop runs over the list |
| `JsonFields.CreateDatasetOf` | JSONUtil.py:5-48 | succeeds exactly when the shape options and the field loop do. The attribute field list is the names of the added fields, in input order |
| `JsonFields.CollectFieldNames` | JSONUtil.py:31-39 | the appending loop computes the field list and, alongside it, the names |
| `JsonFields.AddFields` | JSONUtil.py:31-39 | the same loop for the fields of a JSON schema |
| `JsonFields.CreateDataset` | JSONUtil.py:5-48 | `_createDataset` as a whole |
| `JsonFields.UntypedAttributeRejected` | JSONUtil.py:33 | a guessed field without a type makes `_createDataset` raise `KeyError('type')` |
| `JsonFields.OidAttributeSkipped` | JSONUtil.py:34 | a guessed OID field is not added |
| `JsonFields.TypedAttributeAdded` | JSONUtil.py:33-39 | any other guessed field is added under its attribute name; a string attribute becomes `TEXT` |
| `JsonFields.FieldRecordEntries` | JSONUtil.py:225-230 | a field record has the alias, the name, `'esriFieldType' + type`, and a `length` exactly for `String` and `Blob` |
| `JsonFields.ListedFields` | JSONUtil.py:224 | a field is written exactly when its type is neither `Geometry` nor `OID` and its name is neither `Shape_Length` nor `Shape_Area` |
| `JsonFields.ListedFieldsSingle` | JSONUtil.py:222-224 | one field is kept exactly when it is written |
| `JsonFields.ListedFieldsAppend` | JSONUtil.py:222-232 | the fields of a concatenation are the fields of each part, in turn: the written fields keep their input order, each once per occurrence |
| `JsonFields.FieldRecords` | JSONUtil.py:221-232 | one record per written field, in order |
| `JsonFields.DumpFields2JsonStr` | JSONUtil.py:220-234 | the text is `json.dumps` of those records, indented by 4 under `pjson` |
| `JsonFields.RecordRecreated` | JSONUtil.py:33-39 | a written field record, read back by `_createDataset`, adds that field again |
| `JsonFields.DumpedFieldsRecreated` | JSONUtil.py:33-39 | the whole dumped field list is recreated field for field |
| `JsonFields.DumpedAttributeFieldList` | JSONUtil.py:5-48 | the attribute field list of a schema holding dumped fields is the names of the written fields, in order |
| `JsonStream.DrainAsWritten` | JSONUtil.py:59-65 | the inner loop as written never lengthens the buffer |
| `JsonStream.DrainAsWrittenStops` | JSONUtil.py:59-63 | the inner loop as written ends on a buffer that does not decode |
| `JsonStream.DrainStops` | JSONUtil.py:59-63 | the corrected inner loop ends on a left-stripped buffer that does not decode |
| `JsonStream.LoadIsDrain` | JSONUtil.py:51-65 | with the corrected loop, and a decoder that consumes input and does not change its answer when more text follows, reading chunk by chunk yields what decoding the whole content yields |
| `JsonStream.ChunkingIrrelevant` | JSONUtil.py:51-65 | so any two chunkings of the same content yield the same values |
| `JsonStream.AsWrittenJoins` | JSONUtil.py:58-65 | as written, a string value cut after a blank loses that blank |
| `JsonStream.CorrectedKeeps` | JSONUtil.py:51-65 | the corrected loop keeps it |
| `JsonStream.BlankLostAtChunkEnd` | JSONUtil.py:58 | on that input the two loops differ |
| `JsonStream.Chunks` | JSONUtil.py:55 | every chunk read is nonempty and at most 4096 characters, and there are none exactly when the file is empty |
| `JsonStream.ChunksConcat` | JSONUtil.py:55-57 | the chunks concatenate to the content |
| `JsonStream.LoadChunks` | JSONUtil.py:51-65 | the values read from a file are those decoded from its whole content |
| `JsonStream.TextFile.Read` | JSONUtil.py:55 | `read(n)` returns the next `n` characters, or what is left, and consumes them |
| `JsonStream.DrainBuffer` | JSONUtil.py:59-65 | the inner loop computes the corrected drain |
| `JsonStream.IterLoadUnenclosed` | JSONUtil.py:51-65 | reads the whole file and yields the corrected values; for a well-behaved decoder these are the values of the whole content |
| `JsonWriter.FieldList` | JSONUtil.py:262-273 | the field list holds the names of the written fields, then `shape@json` for a feature class |
| `JsonWriter.RowLength` | JSONUtil.py:279 | the attributes come from as many cells as there are written fields |
| `JsonWriter.BuildFieldList` | JSONUtil.py:262-273 | the appending loop builds that list |
| `JsonWriter.RowAttributes` | JSONUtil.py:283-288 | the cell loop with its counter builds the attribute dict of one row |
| `JsonWriter.AttributesPrefix` | JSONUtil.py:283-288 | with distinct field names, the dict holds exactly the first `min(len(row), row_len_no_geom)` cells under their field names, with datetimes as text |
| `JsonWriter.AttributeNamesInHeader` | JSONUtil.py:249-288 | each attribute key written for a row is the name of the field record at the same position in the header |
| `JsonWriter.GeometryText` | JSONUtil.py:297 | the last cell as text. Under `pjson` it is `json.dumps(json.loads(cell), indent=4)`; that fails exactly when the cell is not a string or does not decode. An empty row fails with `IndexError` |
| `JsonWriter.PercentFormat` | JSONUtil.py:299-302 | a template without `%` is left as is when no arguments are given, and raises `TypeError` when some are |
| `JsonWriter.FormatLiteral` | JSONUtil.py:299-302 | text without `%` passes through `%` formatting unchanged |
| `JsonWriter.FormatHole` | JSONUtil.py:299-302 | `%s` takes the next argument |
| `JsonWriter.FormatQuote` | JSONUtil.py:299-302 | `%"` raises `ValueError('unsupported format character')` |
| `JsonWriter.RowTextAgrees` | JSONUtil.py:298-302 | when neither the attributes text nor the geometry text holds `%`, the row text as written equals the intended text: each `%s` is a newline, plus a trailing newline in the unenclosed variant |
| `JsonWriter.FeatureRowAgrees` | JSONUtil.py:298-299 | that agreement for a feature class |
| `JsonWriter.TableRowAgrees` | JSONUtil.py:301-302 | that agreement for a table |
| `JsonWriter.PercentQuoteRaises` | JSONUtil.py:298-302 | as written, an attributes text holding `%"`, as `json.dumps` writes a text value ending in `%`, makes the row raise `ValueError` |
| `JsonWriter.RowOutput` | JSONUtil.py:295-302 | with the intended row text (see "## Findings"), a row fails exactly when it is a feature and its geometry text fails |
| `JsonWriter.RowJson` | JSONUtil.py:283-302 | the row body computes the intended row text (see "## Findings"), which equals the text as written when the data holds no `%` |
| `JsonWriter.FeaturesNext` | JSONUtil.py:290-304 | each further row writes `,` and a newline, then its text. A row that fails after the first still leaves its separator written |
| `JsonWriter.FeaturesJoined` | JSONUtil.py:278-304 | when every row succeeds, the features are the row texts joined by `,` and a newline: a separator before every row but the first |
| `JsonWriter.FeaturesStop` | JSONUtil.py:282-304 | the first failing row stops the loop, after the texts of the rows before it and the separator written for it |
| `JsonWriter.FeaturesStopped` | JSONUtil.py:282-304 | once a row has failed, later rows change nothing |
| `JsonWriter.DocumentWritten` | JSONUtil.py:245-308 | a successful conversion writes the header, the joined rows, `]` and a newline, then `}` |
| `JsonWriter.UnenclosedConcat` | JSONUtil.py:341-358 | the unenclosed writer writes the row texts one after another, with no separators and no brackets |
| `JsonWriter.UnenclosedRowText` | JSONUtil.py:352-356 | an unenclosed row is the enclosed row followed by a newline under `pjson`, and fails exactly when it fails |
| `JsonWriter.UnenclosedStopped` | JSONUtil.py:341-358 | once an unenclosed row has failed, later rows change nothing |
| `JsonWriter.OutputFile.Write` | JSONUtil.py:249 | writing appends the text to what the file holds |
| `JsonWriter.WriteHeader` | JSONUtil.py:245-276 | writes the header: `{`; the fields; for a feature class `hasZ`, `hasM` and the spatial reference's factory code; then `"features": [` |
| `JsonWriter.WriteFeatures` | JSONUtil.py:277-304 | the row loop with its `add_comma` flag writes exactly the features text built from the intended row texts (see "## Findings"), and stops with the error of the first failing row |
| `JsonWriter.ConvertFc2Json` | JSONUtil.py:237-308 | writes the document with the intended row texts (see "## Findings"), or the part of it before the first failing row |
| `JsonWriter.ConvertFc2JsonUnenclosed` | JSONUtil.py:311-358 | writes the unenclosed features with the intended row texts (see "## Findings"), or those before the first failing row |

## Left out

- Sockets, `httplib` connections and their 600 second timeouts, and closing connections. The network is a function from requests to responses.
- Logging, and the `__main__` smoke tests of both files.
- `webhdfs/__init__.py`. It only re-exports names.
- `urlparse`. The `Location` header reaches the model already split into scheme, netloc, path and query.
- `json.loads`, `json.dumps`, `JSONDecoder.raw_decode` and `unicode()` of a geometry cell are parameters. Only their success or failure is modelled. `dumps` never raises here.
- arcpy is not modelled as code: `CreateFeatureclass_management`, `CreateTable_management`, `AddField_management`, `CopyFeatures_management`, `CopyRows_management`, `Delete_management`, `Exists`, `InsertCursor` and `SearchCursor`.
  - The description and the cursor rows are values.
  - `_createDataset` is modelled as the plan it hands to arcpy: the shape options and the fields it adds.
  - `shapeFieldName` is read but never used by the source, so it is not modelled.
- `ConvertJSONToFC` and `ConvertJSONToFCUnenclosed` are not part of this model: they only drive arcpy with the pieces above.
- The `uuid` temporary name, `os.path.isfile` as anything but membership in the local file map, file seeking, codecs and Unicode encodings. Text is a sequence of characters and bodies are sequences of bytes.
- `JsonStream.IterLoadUnenclosed`: the generator is modelled as a method that returns all the values it would yield. It does not capture a caller stopping early, as `ConvertJSONToFCUnenclosed` does after the first feature.
- `JsonStream.DrainAsWritten` and `JsonStream.Drain`: `raw_decode` is total in the model, so each loop is guarded to stop on a decoder answer that consumes nothing or more than the buffer. The stop properties are proved only for decoders that consume at least one character (`Consumes`).
- `JsonStream.LoadIsDrain`: the chunk independence is proved only for decoders whose answer does not change when more text follows (`PrefixStable`). A real JSON decoder does not have this property for numbers cut in the middle (`12` then `3`).
- `JsonWriter.PercentFormat`: only `%s`, `%%` and a few malformed directives are modelled. Any other conversion character the template could meet gives `OutsideModel`.
- `JsonFields.ExcludedName`: `geomFieldName` is None at every call site. The exclusion list then holds `None`, which excludes only a field whose name is JSON null. A named geometry field is modelled, but no caller passes one.
- `JsonWriter.RowOutput`: it uses the corrected row text. The source's `%` formatting of the data is not part of it: a row whose data holds `%"` raises `ValueError` in the source, and `%%` in the data becomes `%` there. `RowTextAsWritten` models that behaviour, and `RowTextAgrees` shows both texts are equal when the data holds no `%`.
- `JsonWriter.RowJson`: computes the corrected row text, with the same difference from the source as `RowOutput`.
- `JsonWriter.WriteFeatures`: writes the corrected row texts. It does not stop where the source raises on `%` in the data.
- `JsonWriter.ConvertFc2Json`: the document it writes is the corrected one. It equals the source's document only when no attribute or geometry text holds `%`.
- `JsonWriter.ConvertFc2JsonUnenclosed`: the same `%` difference as `ConvertFc2Json`.
- Dict iteration order. In the model, a dict built by assignment iterates in insertion order. Python 2 iterates in hash order, so the key order in the field records (JSONUtil.py:225-230) and in each row's `attributes` dict (JSONUtil.py:287) is not modelled. Only `json.dumps` sees that order, and `dumps` is a parameter here.
- `Python.Truthy`: a float is a decimal literal, and it is truthy when its mantissa holds a nonzero digit. No float arithmetic is modelled.

## Findings

| source | as written | input that shows it | evidently intended | confidence | as-written member | corrected member |
|---|---|---|---|---|---|---|
| JSONUtil.py:58,65 | every chunk read, and every leftover after a value, is stripped of blanks at both ends before it joins the buffer | a file holding `"a b"` read so that one chunk ends after `"a ` and the next starts with `b"`; the value read is `ab` | blanks are skipped only where a value is expected to start, so the chunking of the file does not change the values | high, not executed | `JsonStream.LoadAsWritten`, `JsonStream.BlankLostAtChunkEnd` | `JsonStream.Load`, `JsonStream.LoadIsDrain`, `JsonStream.CorrectedKeeps`, `JsonStream.DrainBuffer`, `JsonStream.IterLoadUnenclosed` |
| JSONUtil.py:298-302,352-356 | the attributes and geometry texts are inserted by `format` first, and `%` formatting runs on the result | a text attribute whose value ends in `%` (such as `5%`) is dumped as `"5%"`, so the template holds `%"` and `%` formatting raises `ValueError`; a `%s` inside a value would take a newline argument instead | the newlines are inserted around the data without reading the data as a format | high, not executed | `JsonWriter.RowTextAsWritten`, `JsonWriter.PercentQuoteRaises` | `JsonWriter.RowText`, `JsonWriter.RowTextAgrees` |
