# o365graph core in Dafny

This project models the core of the o365graph service. The service is a Flask
pass-through to Microsoft Graph. Its core is the `Graph` client class of
`service/graph.py`:

- the authenticated `request` with its lazily opened session;
- `get_token`, and the single token refresh after a 401;
- the cursor paging loop `__get_all_paged_entities`;
- the site-URL stream `__get_all_siteurls`;
- site and drive resolution, with the search for a document library by name;
- the paged children listing, and the recursive folder walk that tags every
  file with `source_path` and `_id`;
- file URLs, download, upload with its size-based choice of a single PUT or an
  upload session, and the metadata PATCH.

The model also covers the helpers of `service/utils.py` (`set_group_id`,
`stream_json`, `determine_url_parts`). Finally it covers the older paging loop
`DataAccess.__get_all_paged_entities` and `stream_json` of
`service/o365graph.py`.

The world outside the client is a set of values:

- Graph is a function from request to response (`Http.HttpRequest ->
  Http.HttpResponse`).
- The token endpoint answers its n-th request with a function of the
  credentials and n.
- A ghost log of the requests sent lets contracts speak about what went over
  the wire.
- Cursor loops terminate because of a ghost rank. `Paging.CursorsDescend`
  assumes every next-page link ranks below the URL whose answer carried it.

Every operation of the `Graph` class sends through `request`, and the client
carries its resend policy after a 401 (`GraphService.Context.resend`). With
`Stale`, the request prepared before the token refresh is sent again, as the
code is written; with `Fresh` it is prepared anew with the refreshed header.
The source's client is the one built with `Stale`. Every contract of the class
and of its specification functions holds for both policies.

Modules, leaves first:

- `Wrappers`: `Option` and `Result`.
- `Strings`: split, join, substring search, and decimal rendering and parsing
  of naturals.
- `JsonValues`: decoded JSON, truthiness, `dict.get` and plain key access.
- `Http`: requests, responses, the exceptions raised, and the bearer header.
- `Utils`: the helpers of `service/utils.py`.
- `Paging`: reading one page, and what a walk of pages yields and how it ends.
  Both paging loops share it.
- `Auth`: `request` and `get_token` as functions of the client state
  (`Auth.Exchange`).
- `Drive`: URL building, reading the site and drive lookups, the library scan,
  and the upload plan.
- `TreeWalk`: the folder walk over a finite listing tree, as written and
  corrected.
- `GraphService`: the `Graph` class. Its fields `session`, `auth_header` and
  the token counter are updated in place. Every method is proved equal to a
  specification function over the client state.
- `O365Graph`: the legacy paging loop with its single token, and its copy of
  `stream_json`.

## Model

| member | source | states |
|---|---|---|
| Http.BearerHeader | service/graph.py:39 | the auth header has the single key `Authorization`, whose value is `"Bearer " + token` |
| Auth.AccessToken | service/graph.py:30-38 | a token is obtained exactly when the reply arrived with an ok status and a JSON object holding a string `access_token`, and it is that string |
| Auth.GetToken | service/graph.py:22-39 | one more token request; success exactly when the token is obtained, and then `auth_header` becomes its bearer header; on failure the header is left as it was and the error is raised; session and sent requests are untouched |
| Auth.MergeHeaders | service/graph.py:46-53 | the merge succeeds unless an absent auth header must be spread; its keys are exactly the caller's, the auth header's and `Content-Type` for a JSON body; the auth header overrides the caller's value, and the JSON content type overrides both |
| Auth.Prepare | service/graph.py:55 | the prepared request carries the call's method, URL, query arguments and body, with the merged headers |
| Auth.Ready | service/graph.py:42-44 | afterwards the session is open; a token is fetched exactly when no session was open; an open session changes nothing |
| Auth.Exchange | service/graph.py:41-63 | requests are only appended to the log; every request sent carries the call; a returned response is the upstream's answer to the last request sent |
| Auth.ExchangeSession | service/graph.py:42-60 | the session is open afterwards; token requests grow by one on first use and by one more exactly when the first answer was 401; an open session keeps its header unless the answer was 401 |
| Auth.ExchangeSends | service/graph.py:57-63 | at most two requests; without a 401 exactly one, whose answer is returned; a second request only after a 401, and then its answer is returned whatever it is; after a 401 the second request goes out exactly when the refresh succeeds, and a failed refresh raises the token endpoint's error |
| Auth.ExchangeErrors | service/graph.py:22-63 | `request` itself raises only token and header errors (never a status error), after at most the first request, and a token error only after a token request |
| Auth.ExchangeResend | service/graph.py:55-61 | the resend as written repeats the first request unchanged; the corrected resend carries every header of the refreshed auth header |
| Auth.ExchangeHeaders | service/graph.py:46-55 | the first request carries the caller's headers merged with the auth header held once the session is ready; a fresh resend merges the refreshed header instead |
| Auth.ExchangeJsonContentType | service/graph.py:52-53 | a call with a JSON body sends `Content-Type: application/json` with every request, the resend included |
| Auth.StaleRetryRejected | service/graph.py:57-61 | as written, a request answered with 401 whose token refresh succeeds returns a 401 answer again, because the same request is resent |
| Auth.StaleResendCounterexample | service/graph.py:55-61 | the first token is rejected and a second token is issued: the resend as written still carries the old token and gets 401, while the client holds the new one; the corrected resend gets 200 |
| Paging.CursorOf | service/graph.py:90-94 | the walk ends exactly when the next-page value is absent or null; a string is followed as the next URL; any other value is kept as a bad cursor |
| Paging.ReadPage | service/graph.py:81-88 | a rejected status raises with status and text; a page is read exactly when the status is accepted, the body decodes and the entities path holds a list; the page's entities are that list and its cursor is read from the body |
| Paging.PageStep | service/graph.py:77-88 | an exception of the page request ends the walk with that exception; an answer is read as a page |
| Paging.PageParams | service/graph.py:76-79 | the caller's arguments are sent exactly when the URL has no occurrence of `$skiptoken` |
| Paging.YieldedAppend | service/graph.py:86-88 | what a walk yields is what its first pages yield followed by what the later pages yield |
| Paging.YieldedSnoc | service/graph.py:86-94 | one more page adds its entities at the end, and a page that raised decides the outcome |
| Paging.YieldedOrder | service/graph.py:86-88 | entity k of page i is yielded right after everything the earlier pages yielded: page order, then order within the page |
| Paging.HaltKeepsEarlier | service/graph.py:81-84 | a walk ended by an exception has yielded exactly the entities of the earlier pages, each of which was read in full |
| Paging.CompletedWalk | service/graph.py:90-95 | a walk ends without an exception exactly when its last page has no link, and then its count is the number of pages read |
| Drive.OkField | service/graph.py:142-145 | a refused answer gives `None`; an ok answer gives the key's value, `None` when absent, and raises when the body does not decode or is no object (the site id here, the download URL at lines 230-233) |
| Drive.LibraryScanReads | service/graph.py:163-168 | the library scan succeeds exactly when every entry can be read, and it finds nothing exactly when no entry has the requested name |
| Drive.LibraryScanFinds | service/graph.py:163-165 | a found library is the id of the last entry with the requested name |
| Drive.LibraryScanFails | service/graph.py:163-165 | a failing scan raises the exception of the first entry it cannot read |
| Drive.FindLibraryId | service/graph.py:163-168 | the loop over the drives listing computes the library scan |
| Drive.PrefixScanFails | service/graph.py:163-165 | once an entry raises, the rest of the listing is not read |
| Drive.RootUrl | service/graph.py:172 | the root URL is `url + "/" + drive id + "/root"`, and building it raises unless the id is a string |
| Drive.ReadDriveRoot | service/graph.py:158-173 | reading the drive lookup answer computes the drive root function |
| Drive.DefaultDriveRoot | service/graph.py:150-173 | without a library there is no root exactly when the answer is refused; an ok answer that does not decode raises, and one succeeds exactly when it is an object with a string `id`; a resolved root is `graph_url + "/sites/" + site id + "/drives/" + drive id + "/root"` |
| Drive.LibraryDriveRoot | service/graph.py:152-173 | with a library there is no root exactly when the lookup failed or a non-empty listing has no entry with that name; a root is the last matching drive under `/drives/`, or for an empty listing the reply's own id under `/drivess/` |
| Drive.ReadChildPage | service/graph.py:191-196 | a children page is read exactly when the body is an object; its `value` is yielded, and its link is present exactly when `@odata.nextLink` is a key |
| Drive.UploadHeaders | service/graph.py:269-272 | the session PUT headers are exactly `Content-Range` and `Content-Length`; the length reads back as the size and the range as 0 to size - 1 of size |
| Drive.ContentRangeRoundTrip | service/graph.py:270 | `bytes 0-(n-1)/n` parses back to (0, n - 1, n) |
| Drive.SessionUploadUrl | service/graph.py:282-287 | a missing or falsy `uploadUrl` gives no upload URL; an upload URL given is the reply's own non-empty `uploadUrl` string; reading fails exactly when the reply does not decode, is no object, or has a truthy `uploadUrl` that is no string |
| GraphService.GraphUrl | service/graph.py:19 | `graph_url` is the configured base URL unless it is absent or empty, and the Graph v1.0 URL otherwise |
| GraphService.PagedWalk | service/graph.py:65-94 | the walk from `graph_url + path` starts at that URL; every page but the last was read and linked to the next; the last ended the walk; requests are only appended |
| GraphService.PagedWalkRead | service/graph.py:70-94 | every page of the walk is read, with the `ok` test, from the upstream's answer to a request the walk sent for that page's URL, unless `request` raised for it; every request the walk sends is the call for one of its pages |
| GraphService.PagedWalkRequests | service/graph.py:76-79 | every request the walk sends is a GET without a body that carries the caller's arguments exactly when its URL lacks `$skiptoken` |
| GraphService.StalePageRejected | service/graph.py:57-61 | as written, a page request answered with 401 ends the walk with an exception, whatever the refreshed token |
| GraphService.SiteIdLookup | service/graph.py:137-145 | the site id lookup sends only GETs of `graph_url + "sites/" + netloc + ":" + path`; a refused answer gives `None`, an ok one the `id` of the answer's body |
| GraphService.DriveUrlLookup | service/graph.py:147-175 | a failed site id lookup raises, a falsy site id gives `None` and a site id that is no string raises, all with no drive request; otherwise only GETs of the drives URL of that id are sent, and the result is the drive root read from the answer to the last one |
| GraphService.DownloadUrlLookup | service/graph.py:223-235 | a failed drive lookup is raised again and a missing drive root gives `None`, both with no details request; otherwise only GETs of `drive_url + ":/" + path` (path not quoted) are sent, and the result is `None` for a refused answer and the `@microsoft.graph.downloadUrl` of the answer to the last one otherwise |
| GraphService.UploadUrlSpec | service/graph.py:237-242 | the upload URL is the file URL with `:/createUploadSession` for a session and `:/content` otherwise |
| GraphService.AddFileSpec | service/graph.py:259-300 | `add_file` never raises: every exception becomes `None` |
| GraphService.SessionUploadSpec | service/graph.py:267-291 | the session branch never raises either |
| GraphService.GetFileDownload | service/graph.py:248-257 | the download is one GET of the download URL with no headers, so no `Authorization`, and it leaves session and token alone; it gives `None` exactly when the answer is refused, otherwise the answer's bytes; a download URL that is no string raises |
| GraphService.AddFileDirect | service/graph.py:292-298 | up to 4000000 bytes, every request after the file URL lookup is a PUT of the content to the file URL + `:/content`, and a response returned is the answer to the last of them; a file URL that does not resolve gives `None` |
| GraphService.AddFileThroughSession | service/graph.py:267-291 | above 4000000 bytes, once the file URL resolves the rest is the session upload from the file URL + `:/createUploadSession`; otherwise `None` |
| GraphService.SessionRefused | service/graph.py:276-285 | the session requests are POSTs to the session URL; a refused session, or an answer without an upload URL, is returned as it is and no PUT follows |
| GraphService.SessionPut | service/graph.py:282-291 | with an upload URL, every later request is a PUT of the content to it, the first with the range headers merged with the auth header; a response returned is the answer to the last PUT |
| GraphService.UpdateFileMetadataPatch | service/graph.py:308-312 | once the file URL resolves, every request is a PATCH of the payload as JSON to the file URL + `:/listItem/fields` with `Content-Type: application/json`; a file URL that does not resolve raises |
| GraphService.SiteRound | service/graph.py:99-108 | a site yielded for a group is an object whose `_id` is the group's id; requests are only appended |
| GraphService.SiteRoundLookup | service/graph.py:99-108 | a group without an id raises `UnboundLocalError`, a non-string id raises, both before any request; otherwise only GETs of `graph_url + "groups/" + id + "/sites/root"` are sent; when `request` returns, nothing is yielded exactly when the answer is refused, an ok answer yields its body with `_id` set to the group id, and an ok answer whose body is no object raises |
| GraphService.SiteUrlsMarked | service/graph.py:97-108 | the stream yields at most one site per posted group, each marked with the id of a posted group |
| GraphService.SiteUrlsInOrder | service/graph.py:97-108 | the sites come in group order: for increasing group positions, each site is the ok answer's body to a root site GET for that group, marked with the group's id |
| GraphService.ChildRound | service/graph.py:190-196 | a children page read is the upstream's answer to the last request sent, whose URL is the page's URL |
| GraphService.ChildPagesChain | service/graph.py:187-196 | the listing is a chain of pages from its first URL, each page's `@odata.nextLink` being the next page's URL and the last page having none (or a link that is no string, or it raised); it yields every page's `value` in order, each read from the upstream's answer to a request the listing sent for that page's URL |
| GraphService.Graph.constructor | service/graph.py:16-20 | a new client has no session, no token and has sent nothing, and its Graph URL is `GraphUrl(base_url)`; the resend policy is `Stale` for the client as written |
| GraphService.Graph.GetToken | service/graph.py:22-39 | updates the fields as `Auth.GetToken` says |
| GraphService.Graph.Request | service/graph.py:41-63 | `request` updates the fields and answers as `Auth.Exchange` with the client's resend policy |
| GraphService.Graph.RequestRefreshed | service/graph.py:41-63 | the corrected `request` (the resend is prepared with the refreshed header) updates the fields and answers as `Auth.Exchange` with a fresh resend |
| GraphService.Graph.RequestAsWritten | service/graph.py:41-63 | `request` as written (the prepared request is resent unchanged) updates the fields and answers as `Auth.Exchange` with a stale resend |
| GraphService.Graph.FetchPage | service/graph.py:75-88 | one round of the paging loop: the page request through `request`, read with the `ok` test; as written, a 401 ends the walk (`GraphService.StalePageRejected`) |
| GraphService.Graph.ReadNextPage | service/graph.py:70-94 | a page that raises ends the walk with what the walk yields and its exception; a page read moves the loop to its cursor and counts the page |
| GraphService.Graph.GetAllPagedEntities | service/graph.py:65-95 | the entities yielded are those of every page of the walk from `graph_url + path`, in order; the count is the number of pages, or the exception that ended the walk |
| GraphService.Graph.ReadPages | service/graph.py:68-95 | the loop yields what the walk yields and ends with its outcome and state |
| GraphService.Graph.SharepointSiteId | service/graph.py:134-145 | the site id lookup through `request`, as `GraphService.SiteIdLookup` describes |
| GraphService.Graph.SiteDocumentsDriveUrl | service/graph.py:147-175 | `None` without a truthy site id, otherwise the drive root read from the drive lookup |
| GraphService.Graph.FileUrlOf | service/graph.py:244-246 | the file URL under the drive root; a missing root raises |
| GraphService.Graph.FileUploadUrl | service/graph.py:237-242 | as `GraphService.UploadUrlSpec` |
| GraphService.Graph.FileDownloadUrl | service/graph.py:223-235 | updates the fields and answers as `DownloadUrlSpec`: `None` without a drive root or for a refused details lookup, otherwise the download URL of the answer (`GraphService.DownloadUrlLookup`) |
| GraphService.Graph.GetFile | service/graph.py:248-257 | updates the fields and answers as `GetFileSpec`, whose unauthenticated download `GraphService.GetFileDownload` describes |
| GraphService.Graph.AddFile | service/graph.py:259-300 | updates the fields and answers as `AddFileSpec`: one PUT to `:/content` up to 4000000 bytes (`GraphService.AddFileDirect`), the session upload above (`GraphService.AddFileThroughSession`); exceptions give `None` |
| GraphService.Graph.UploadThroughSession | service/graph.py:276-291 | updates the fields and answers as `SessionUploadSpec`: the POST, then a PUT with the range headers only for an accepted session with an upload URL (`GraphService.SessionRefused`, `GraphService.SessionPut`) |
| GraphService.Graph.UpdateFileMetadata | service/graph.py:308-312 | updates the fields and answers as `UpdateFileMetadataSpec`, the JSON PATCH of `GraphService.UpdateFileMetadataPatch` |
| GraphService.Graph.SiteForGroup | service/graph.py:99-108 | one round of the site stream: the group's root site marked with `_id`, nothing for a refused lookup, or the exception |
| GraphService.Graph.GetAllSiteUrls | service/graph.py:97-108 | the stream of marked root sites, ended by the first exception |
| GraphService.Graph.DrivePathChildren | service/graph.py:177-197 | nothing without a drive root, otherwise every page of the folder's listing |
| GraphService.Graph.FetchChildPage | service/graph.py:190-196 | one round of the listing loop |
| GraphService.Graph.ReadChildPages | service/graph.py:187-196 | the loop yields what `ChildPagesSpec` yields, the chain of pages of `GraphService.ChildPagesChain`: every page's `value` whatever its status, following `@odata.nextLink` while present |
| TreeWalk.Tag | service/graph.py:216-217 | tagging sets `source_path` to the path and `_id` to the record's `id` (or `None`), and changes nothing else |
| TreeWalk.TagTwice | service/graph.py:211-214 | tagging a tagged record again overwrites the earlier tag |
| TreeWalk.Retag | service/graph.py:211-214 | every record of a folder's walk is tagged with that folder's path |
| TreeWalk.NestedChildrenTags | service/graph.py:199-221 | the walk as written yields, in depth-first order, every file tagged with the path of the first-level folder above it, or with the starting path for its own files; a nested exception's error record is tagged likewise; an exception of the starting folder gives an untagged error record |
| TreeWalk.NestedChildrenFixedTags | service/graph.py:199-221 | the corrected walk yields, in the same order, every file tagged with the path of the folder that holds it, and every exception as an untagged error record |
| TreeWalk.TopFaultIsLast | service/graph.py:219-221 | an exception of the starting folder ends the walk: its error record is the last record |
| TreeWalk.NoDriveYieldsNothing | service/graph.py:180-181 | when the drive root cannot be resolved the walk yields nothing, not even an error record |
| TreeWalk.DeepLeafCounterexample | service/graph.py:208-214 | a file two folders below `p` in `p/a/b` is tagged `p/a` by the walk as written and `p/a/b` by the corrected walk |
| Utils.IdKeySuffix | service/utils.py:9 | a key qualifies exactly when it is `id` or ends in `:id` |
| Utils.LastIdValueFound | service/utils.py:8-14 | a group id found is the value of the last qualifying key in iteration order |
| Utils.LastIdValueNone | service/utils.py:8-14 | no group id is found exactly when no key qualifies |
| Utils.SetGroupId | service/utils.py:7-14 | the loop returns the value of the last qualifying key, and fails with an unbound `groupid` when no key qualifies |
| Utils.FramedLayout | service/utils.py:17-26 | the chunks are `[`, then the rows in input order with exactly one `,` between neighbours, then `]`; an empty input gives just `[` and `]` |
| Utils.FramedJoined | service/utils.py:17-26 | the chunks joined are `"[" + rows joined by "," + "]"` |
| Utils.StreamJson | service/utils.py:17-26 | the loop with its `first` flag yields the framed chunks of the serialised rows |
| Utils.LibrarySegment | service/utils.py:38-48 | the library segment is the first of segments 2, 3 and 4 holding a `:`; none when segments 2 to 4 exist and none holds one; `IndexError` when segment 3 or 4 is needed but missing |
| Utils.DetermineUrlParts | service/utils.py:29-53 | fewer than three segments raise; with three or more the parse fails exactly when the library segment search raises, and then with `IndexError`; otherwise the site is `sharepoint_url + "/" + seg0 + "/" + seg1`, and the file name is the last segment exactly when it holds a `.` |
| Utils.LibraryAndPath | service/utils.py:38-48 | the library is the text between the first and second `:` of the library segment, and the path is the segments after it; without a library the path is segments 2 onward |
| Utils.NoLibraryRebuildsLocation | service/utils.py:37-48 | without a library, the site and the returned path put back together give `sharepoint_url + "/" + path` |
| O365Graph.LegacyWalk | service/o365graph.py:46-72 | the legacy walk starts at its first URL; every page but the last was read with status 200 and linked to the next; the last ended the walk |
| O365Graph.LegacyWalkReads | service/o365graph.py:54-70 | every page of the legacy walk is read, with the exactly-200 test, from the upstream's answer to the GET of that page's URL with the one token |
| O365Graph.LegacyRequestsShareToken | service/o365graph.py:45-58 | one request per page, each a GET of the page's URL with the same header `Authorization: Bearer` + the one token, the caller's arguments exactly when the URL lacks `$skiptoken`, and no body |
| O365Graph.FetchLegacyPage | service/o365graph.py:54-66 | one round of the legacy loop: a status other than exactly 200 raises with status and text |
| O365Graph.GetAllPagedEntities | service/o365graph.py:42-73 | an unset `base_url` raises before anything is sent; a failed token raises before anything is sent; otherwise the entities, page count or exception, and the requests sent are those of the walk from `base_url + path` |
| O365Graph.ReadLegacyPages | service/o365graph.py:46-73 | the legacy loop yields what the walk yields and sends its requests |
| O365Graph.StreamJson | service/o365graph.py:82-91 | the chunks joined are `"[" + rows joined by "," + "]"` |

## Left out

- HTTP transport (`requests.Session`, `Request.prepare`, `requests.get` and `requests.post`): the upstream and the token endpoint are functions given as inputs. Transport failures appear only as the token endpoint's `TokenUnreachable`.
- The pause between pages (`sleep(float(...))` in both paging loops) and all logging. The model takes the `sleep` setting as absent or numeric. A setting that `float` cannot parse raises `ValueError` before the first page request, and the model does not have that path.
- The environment reads of `service/o365graph.py`: `base_url` and the outcome of its module-level `get_token()` (a POST and a `dotdictify` lookup of `access_token`) are inputs of `O365Graph.LegacyConfig`.
- The Flask app and routes of `service/o365graph.py`, and `service/sharepoint.py`: a route layer and a wrapper over a session whose behaviour is not visible.
- `__get_list` and `get_list`, the public wrappers `get_paged_entities` and `get_siteurls`, and the empty `update_file` stub: they only forward calls or do nothing.
- Generators are run to their end: the model gives what was yielded, and the exception that ended the generator. A consumer that stops early is not modelled.
- Several threads sharing one client's token: the model is sequential.
- `urlparse`, `quote` and `json.dumps` are function parameters.
- Paging.PageConfig: the dotted lookups `Dotdictify(body).get(path)` (sesamutils, in `service/graph.py`) and `dotdictify.dotdictify(body).get(path)` (in `service/o365graph.py`) are the parameter `lookup`, because neither library is part of this model. How they resolve dots in a path and in the body's keys (such as Graph's `@odata.nextLink`) is whatever that parameter says.
- GraphService.SiteRound: the site yielded is the decoded body with `_id` set. Any regrouping of dotted keys done by wrapping the body in `Dotdictify` is not modelled.
- JSON numbers are integers; floats are not modelled.
- Paging.ReadPage: Python iterates an `entities_path` value that is a string or an object (by characters or by keys). The model raises for every value that is not a list.
- Auth.MergeHeaders: header names are compared exactly. The HTTP client's case-insensitive header dictionary is not modelled. That dictionary would fold a caller's `authorization` into the bearer header.
- TreeWalk.NestedChildrenTags: the tree walk takes the listing tree its recursive calls receive as an input. The link between that tree and the requests of `_get_drive_path_children` is not modelled.
- TreeWalk.NestedChildrenTags: records are values, so the in-place update of the child dicts is modelled as tagging a copy. No record is shared between two places of the output, so no aliasing is lost.
- Paging.CursorsDescend: the paging loops are proved only for upstreams whose next-page links never lead back. An upstream that cycles would keep the source's loops running forever.
- Reading and rewinding the upload stream in `add_file`: the content is a byte sequence.

## Behaviour worth noting

- When the drive root cannot be resolved, `_get_site_documents_drive_url` returns `None` and the folder walk yields nothing at all, not even an error record (`TreeWalk.NoDriveYieldsNothing`).
- An exception inside a sub-folder ends only that sub-folder's walk. Its error record is retagged by the level above, and the walk goes on with the next sibling. Only an exception of the starting folder ends the whole walk, with its error record last (`TreeWalk.NestedChildrenTags`, `TreeWalk.TopFaultIsLast`).
- The session flag is set before the first token request. A failed first token request therefore leaves an open session without an auth header. A later `request` with caller headers or a JSON body then raises while spreading the missing header. A plain call goes out with no headers at all, so without an `Authorization` header (`Auth.Ready`, `Auth.MergeHeaders`).

## Findings

| source | as written | input that shows it | evidently intended | confidence | as-written member | corrected member |
|---|---|---|---|---|---|---|
| service/graph.py:57-61 | after a 401 the request prepared before the refresh is sent again, so it carries the old bearer token | first token `t1` rejected with 401, refreshed token `t2` accepted: the resend still says `Bearer t1` and gets 401 again (`Auth.StaleResendCounterexample`) | the resend carries the refreshed token | not executed | GraphService.Graph.RequestAsWritten | GraphService.Graph.RequestRefreshed |
| service/graph.py:211-214 | every record of a sub-folder's walk is retagged with that sub-folder's path at each level, so a file deeper than one level ends up with the first-level folder's path | a file in folder `p/a/b`: the walk from `p` tags it `source_path = "p/a"` (`TreeWalk.DeepLeafCounterexample`) | each file carries the path of the folder that holds it | not executed | TreeWalk.NestedChildrenTags | TreeWalk.NestedChildrenFixedTags |
