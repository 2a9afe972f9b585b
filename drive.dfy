/** The decisions the `Graph` class takes around its drive requests: the URLs
    it builds, how it reads the site and drive lookups, the search for a
    document library by name, and the upload plan of `add_file`. */
module Drive {
  import opened Wrappers
  import opened Strings
  import opened JsonValues
  import opened Http

  /** The two parts of `urlparse(site)` the service uses. */
  datatype UrlSplit = UrlSplit(netloc: string, path: string)

  /** The site lookup URL of `_get_sharepoint_site_id`. */
  function SiteIdUrl(graphUrl: string, site: UrlSplit): string
  {
    graphUrl + "sites/" + site.netloc + ":" + site.path
  }

  /** `resp.json().get(key)` behind an `ok` test that gives Python's `None`
      (`JNull`) for a failed answer: the site id of `_get_sharepoint_site_id`
      and the download URL of `_get_file_download_url`. A body that does not
      decode, or is no object, raises. */
  function OkField(resp: HttpResponse, key: string): (r: Result<Json, Error>)
    ensures !IsOk(resp.status) ==> r == Success(JNull)
    ensures IsOk(resp.status) ==> (r.Success? <==> resp.json.Some? && resp.json.value.JObj?)
    ensures r.Success? && IsOk(resp.status) ==> r.value == GetOr(resp.json.value.fields, key)
  {
    if !IsOk(resp.status) then Success(JNull)
    else if resp.json.None? then Failure(JsonDecodeError)
    else if !resp.json.value.JObj? then Failure(TypeError("reply is not an object"))
    else Success(GetOr(resp.json.value.fields, key))
  }

  /** A document library was asked for (Python truthiness of `document_lib`). */
  predicate LibraryRequested(lib: Option<string>)
  {
    lib.Some? && lib.value != ""
  }

  /** The drive lookup URL: the list of the site's drives when a library was
      asked for, its default drive otherwise. */
  function DrivesUrl(graphUrl: string, siteId: string, lib: Option<string>): string
  {
    graphUrl + "/sites/" + siteId + (if LibraryRequested(lib) then "/drives" else "/drive")
  }

  // ---------------------------------------------------------------------------
  // Choosing a library by name

  /** The entry names the library. */
  predicate Matches(e: Json, lib: string)
  {
    e.JObj? && "name" in e.fields && e.fields["name"] == JStr(lib)
  }

  /** The scan can read the entry: it is an object with a name, and an id too
      when the name matches. */
  predicate Scannable(e: Json, lib: string)
  {
    e.JObj? && "name" in e.fields && (Matches(e, lib) ==> "id" in e.fields)
  }

  /** The exception reading an entry raises. */
  function ScanError(e: Json): Error
  {
    if !e.JObj? then TypeError("drive entry is not an object")
    else if "name" !in e.fields then KeyError("name")
    else KeyError("id")
  }

  /** The scan over the drives listing: every entry is read in order, the id
      of each entry named `lib` overwrites the one found before, and reading a
      malformed entry raises. */
  function LibraryScan(entries: seq<Json>, lib: string): Result<Option<Json>, Error>
  {
    if entries == [] then Success(None)
    else
      var before :- LibraryScan(entries[..|entries| - 1], lib);
      var e := Last(entries);
      if !Scannable(e, lib) then Failure(ScanError(e))
      else if Matches(e, lib) then Success(Some(e.fields["id"]))
      else Success(before)
  }

  /** The scan succeeds exactly when every entry can be read, and it finds
      nothing exactly when moreover no entry is named `lib`. */
  lemma {:induction false} LibraryScanReads(entries: seq<Json>, lib: string)
    ensures LibraryScan(entries, lib).Success? <==> forall i :: 0 <= i < |entries| ==> Scannable(entries[i], lib)
    ensures LibraryScan(entries, lib) == Success(None) <==>
      forall i :: 0 <= i < |entries| ==> Scannable(entries[i], lib) && !Matches(entries[i], lib)
  {
    if entries != [] {
      var init := entries[..|entries| - 1];
      var n := |entries| - 1;
      LibraryScanReads(init, lib);
      assert forall i :: 0 <= i < n ==> entries[i] == init[i];
      assert Last(entries) == entries[n];
      assert (forall i :: 0 <= i < |entries| ==> Scannable(entries[i], lib)) <==>
        (forall i :: 0 <= i < n ==> Scannable(init[i], lib)) && Scannable(entries[n], lib);
    }
  }

  /** A library the scan finds is the id of the last entry named `lib`. */
  lemma {:induction false} LibraryScanFinds(entries: seq<Json>, lib: string)
    requires LibraryScan(entries, lib).Success? && LibraryScan(entries, lib).value.Some?
    ensures exists i ::
              && 0 <= i < |entries| && Scannable(entries[i], lib) && Matches(entries[i], lib)
              && LibraryScan(entries, lib).value.value == entries[i].fields["id"]
              && forall j :: i < j < |entries| ==> !Matches(entries[j], lib)
  {
    var init := entries[..|entries| - 1];
    var n := |entries| - 1;
    assert Last(entries) == entries[n];
    if Matches(entries[n], lib) {
      assert LibraryScan(entries, lib).value.value == entries[n].fields["id"];
      assert Scannable(entries[n], lib);
    } else {
      assert LibraryScan(entries, lib) == LibraryScan(init, lib);
      LibraryScanFinds(init, lib);
      var i :| 0 <= i < n && Scannable(init[i], lib) && Matches(init[i], lib)
        && LibraryScan(init, lib).value.value == init[i].fields["id"]
        && forall j :: i < j < n ==> !Matches(init[j], lib);
      assert entries[i] == init[i];
      assert forall j :: i < j < n ==> entries[j] == init[j];
    }
  }

  /** A scan that fails raises the exception of the first entry it cannot
      read. */
  lemma {:induction false} LibraryScanFails(entries: seq<Json>, lib: string)
    requires LibraryScan(entries, lib).Failure?
    ensures exists i ::
              && 0 <= i < |entries| && !Scannable(entries[i], lib)
              && (forall j :: 0 <= j < i ==> Scannable(entries[j], lib))
              && LibraryScan(entries, lib).error == ScanError(entries[i])
  {
    var init := entries[..|entries| - 1];
    var n := |entries| - 1;
    assert forall i :: 0 <= i < n ==> entries[i] == init[i];
    if LibraryScan(init, lib).Failure? {
      LibraryScanFails(init, lib);
      var i :| 0 <= i < n && !Scannable(init[i], lib)
        && (forall j :: 0 <= j < i ==> Scannable(init[j], lib))
        && LibraryScan(init, lib).error == ScanError(init[i]);
      assert !Scannable(entries[i], lib);
    } else {
      LibraryScanReads(init, lib);
      assert !Scannable(entries[n], lib);
    }
  }

  /** The loop of `_get_site_documents_drive_url` over the drives listing. */
  method FindLibraryId(entries: seq<Json>, lib: string) returns (r: Result<Option<Json>, Error>)
    ensures r == LibraryScan(entries, lib)
  {
    var driveId: Option<Json> := None;
    for i := 0 to |entries|
      invariant LibraryScan(entries[..i], lib) == Success(driveId)
    {
      assert entries[..i + 1][..i] == entries[..i];
      var e := entries[i];
      if !e.JObj? {
        assert entries[..i + 1] == entries[..i] + [e];
        PrefixScanFails(entries, i + 1, lib);
        return Failure(TypeError("drive entry is not an object"));
      }
      if "name" !in e.fields {
        PrefixScanFails(entries, i + 1, lib);
        return Failure(KeyError("name"));
      }
      if e.fields["name"] == JStr(lib) {
        if "id" !in e.fields {
          PrefixScanFails(entries, i + 1, lib);
          return Failure(KeyError("id"));
        }
        driveId := Some(e.fields["id"]);
      }
    }
    assert entries[..|entries|] == entries;
    return Success(driveId);
  }

  /** Once a prefix of the listing fails, the whole scan fails the same way. */
  lemma {:induction false} PrefixScanFails(entries: seq<Json>, k: nat, lib: string)
    requires k <= |entries| && LibraryScan(entries[..k], lib).Failure?
    ensures LibraryScan(entries, lib) == LibraryScan(entries[..k], lib)
    decreases |entries| - k
  {
    if k < |entries| {
      assert entries[..k + 1][..k] == entries[..k];
      PrefixScanFails(entries, k + 1, lib);
    } else {
      assert entries[..k] == entries;
    }
  }

  // ---------------------------------------------------------------------------
  // The drive root

  /** `url + "/" + drive_id + "/root"`, which raises unless the id is a string. */
  function RootUrl(url: string, driveId: Json): (r: Result<Option<string>, Error>)
    ensures r.Success? <==> driveId.JStr?
    ensures r.Success? ==> r.value == Some(url + "/" + driveId.s + "/root")
  {
    if driveId.JStr? then Success(Some(url + "/" + driveId.s + "/root"))
    else Failure(TypeError("can only concatenate str to str"))
  }

  /** The drive root from the drive lookup answer at `url`. A failed lookup
      gives `None`. With a library asked for and a non-empty `value` listing,
      the id of the library found by name (`None` when none is named so);
      otherwise the reply's own `id`, under the URL with an "s" appended. */
  function DriveRoot(url: string, resp: HttpResponse, lib: Option<string>): (r: Result<Option<string>, Error>)
  {
    if !IsOk(resp.status) then Success(None)
    else if resp.json.None? then Failure(JsonDecodeError)
    else if !resp.json.value.JObj? then Failure(TypeError("drive lookup reply is not an object"))
    else
      var payload := resp.json.value.fields;
      var listing := GetOr(payload, "value");
      var scan :- if !LibraryRequested(lib) then Success(false)
        else if Len(listing).None? then Failure(TypeError("object has no len()"))
        else Success(Len(listing).value > 0);
      if scan then
        if !listing.JArr? then Failure(TypeError("drive entry is not an object"))
        else
          var found :- LibraryScan(listing.items, lib.value);
          if found.None? then Success(None) else RootUrl(url, found.value)
      else RootUrl(url + "s", GetOr(payload, "id"))
  }

  /** The reading of the drive lookup answer in `_get_site_documents_drive_url`. */
  method ReadDriveRoot(url: string, resp: HttpResponse, lib: Option<string>) returns (r: Result<Option<string>, Error>)
    ensures r == DriveRoot(url, resp, lib)
  {
    if !IsOk(resp.status) {
      return Success(None);
    }
    if resp.json.None? {
      return Failure(JsonDecodeError);
    }
    if !resp.json.value.JObj? {
      return Failure(TypeError("drive lookup reply is not an object"));
    }
    var payload := resp.json.value.fields;
    var listing := GetOr(payload, "value");
    var scan := false;
    if LibraryRequested(lib) {
      var n := Len(listing);
      if n.None? {
        return Failure(TypeError("object has no len()"));
      }
      scan := n.value > 0;
    }
    if !scan {
      return RootUrl(url + "s", GetOr(payload, "id"));
    }
    if !listing.JArr? {
      return Failure(TypeError("drive entry is not an object"));
    }
    var found := FindLibraryId(listing.items, lib.value);
    if found.Failure? {
      return Failure(found.error);
    }
    if found.value.None? {
      return Success(None);
    }
    r := RootUrl(url, found.value.value);
  }

  /** Without a library: a refused answer, and only that, resolves to no
      root; an ok answer that is not JSON, not an object or has no string
      `id` raises; otherwise the root is
      `graph_url + "/sites/" + site id + "/drives/" + the drive's id + "/root"`. */
  lemma DefaultDriveRoot(graphUrl: string, siteId: string, resp: HttpResponse)
    ensures var r := DriveRoot(DrivesUrl(graphUrl, siteId, None), resp, None);
      && (r == Success(None) <==> !IsOk(resp.status))
      && (IsOk(resp.status) && resp.json.None? ==> r == Failure(JsonDecodeError))
      && (r.Success? && r.value.Some? ==>
            && IsOk(resp.status) && resp.json.Some? && resp.json.value.JObj?
            && var id := GetOr(resp.json.value.fields, "id");
               id.JStr? && r.value.value == graphUrl + "/sites/" + siteId + "/drives/" + id.s + "/root")
      && (IsOk(resp.status) && resp.json.Some? ==>
            (r.Success? <==> resp.json.value.JObj? && GetOr(resp.json.value.fields, "id").JStr?))
  {
    var r := DriveRoot(DrivesUrl(graphUrl, siteId, None), resp, None);
    if r.Success? && r.value.Some? {
      var id := GetOr(resp.json.value.fields, "id");
      assert DrivesUrl(graphUrl, siteId, None) + "s" + "/" + id.s + "/root"
        == graphUrl + "/sites/" + siteId + "/drives/" + id.s + "/root";
    }
  }

  /** With a library asked for, a resolved root is either the listed drive
      last named so, under `/drives/`, or, when the listing is empty, the
      reply's own id under the doubled `/drivess/`; no root at all means the
      lookup failed or no drive is named so. */
  lemma LibraryDriveRoot(graphUrl: string, siteId: string, resp: HttpResponse, lib: string)
    requires lib != ""
    requires DriveRoot(DrivesUrl(graphUrl, siteId, Some(lib)), resp, Some(lib)).Success?
    ensures var r := DriveRoot(DrivesUrl(graphUrl, siteId, Some(lib)), resp, Some(lib)).value;
      && (r.None? <==>
            !IsOk(resp.status)
            || (var listing := GetOr(resp.json.value.fields, "value");
                listing.JArr? && listing.items != [] && LibraryScan(listing.items, lib) == Success(None)))
      && (r.Some? ==>
            var listing := GetOr(resp.json.value.fields, "value");
            if listing.JArr? && listing.items != [] then
              exists id :: LibraryScan(listing.items, lib) == Success(Some(JStr(id)))
                && r.value == graphUrl + "/sites/" + siteId + "/drives/" + id + "/root"
            else
              Len(listing) == Some(0)
              && r.value == graphUrl + "/sites/" + siteId + "/drivess/" + GetOr(resp.json.value.fields, "id").s + "/root")
  {
    var url := DrivesUrl(graphUrl, siteId, Some(lib));
    var r := DriveRoot(url, resp, Some(lib)).value;
    if r.Some? {
      var listing := GetOr(resp.json.value.fields, "value");
      if listing.JArr? && listing.items != [] {
        var id := LibraryScan(listing.items, lib).value.value.s;
        assert url + "/" + id + "/root" == graphUrl + "/sites/" + siteId + "/drives/" + id + "/root";
      } else {
        var id := GetOr(resp.json.value.fields, "id").s;
        assert url + "s" + "/" + id + "/root" == graphUrl + "/sites/" + siteId + "/drivess/" + id + "/root";
      }
    }
  }

  // ---------------------------------------------------------------------------
  // Listing a folder

  const ChildrenQuery := "/children?$expand=listItem($expand=fields)"

  /** The first children URL of `_get_drive_path_children`: the drive root
      itself for an empty path, the quoted path under it otherwise. */
  function ChildrenUrl(driveUrl: string, path: string, quote: string -> string): string
  {
    if path != "" then driveUrl + ":/" + quote(path) + ":" + ChildrenQuery
    else driveUrl + ChildrenQuery
  }

  /** One children page: the `value` it carries (yielded whatever the status
      was) and its `@odata.nextLink`, when the key is present at all. */
  datatype ChildPage = ChildPage(value: Json, nextLink: Option<Json>)

  function ReadChildPage(resp: HttpResponse): (r: Result<ChildPage, Error>)
    ensures r.Success? <==> resp.json.Some? && resp.json.value.JObj?
    ensures r.Success? ==>
      && r.value.value == GetOr(resp.json.value.fields, "value")
      && (r.value.nextLink.Some? <==> "@odata.nextLink" in resp.json.value.fields)
      && (r.value.nextLink.Some? ==> r.value.nextLink.value == resp.json.value.fields["@odata.nextLink"])
  {
    if resp.json.None? then Failure(JsonDecodeError)
    else if !resp.json.value.JObj? then Failure(TypeError("children reply is not an object"))
    else
      var body := resp.json.value.fields;
      var link := if "@odata.nextLink" in body then Some(body["@odata.nextLink"]) else None;
      Success(ChildPage(GetOr(body, "value"), link))
  }

  // ---------------------------------------------------------------------------
  // Files

  /** The file URL of `_get_file_url`. */
  function FileUrl(driveUrl: string, path: string, quote: string -> string): string
  {
    driveUrl + ":/" + quote(path)
  }

  /** The upload URL of `_get_file_upload_url`: an upload session for large
      files, the content endpoint otherwise. */
  function UploadUrl(fileUrl: string, session: bool): string
  {
    fileUrl + (if session then ":/createUploadSession" else ":/content")
  }

  /** The file details URL of `_get_file_download_url` (the path is not
      quoted there). */
  function DetailsUrl(driveUrl: string, path: string): string
  {
    driveUrl + ":/" + path
  }

  /** Payloads above this many bytes go through an upload session. */
  const FileSizeLimit: nat := 4000000

  predicate UsesUploadSession(size: nat)
  {
    size > FileSizeLimit
  }

  /** The `Content-Range` value announcing all `size` bytes in one piece:
      "bytes first-last/complete-length" of section 14.4 of RFC 9110. */
  function ContentRange(size: nat): string
    requires size >= 1
  {
    "bytes 0-" + ShowNat(size - 1) + "/" + ShowNat(size)
  }

  /** The headers of the upload-session PUT. */
  function UploadHeaders(size: nat): (h: Headers)
    requires size >= 1
    ensures h.Keys == {"Content-Range", "Content-Length"}
    ensures ParseNat(h["Content-Length"]) == Some(size)
    ensures ParseContentRange(h["Content-Range"]) == Some((0, size - 1, size))
  {
    ParseShowNat(size);
    ContentRangeRoundTrip(size);
    map["Content-Range" := ContentRange(size), "Content-Length" := ShowNat(size)]
  }

  /** Reads "bytes first-last/complete-length" back into its three numbers. */
  function ParseContentRange(s: string): Option<(nat, nat, nat)>
  {
    if |s| < 6 || s[..6] != "bytes " then None
    else
      var halves := Split(s[6..], '/');
      if |halves| != 2 then None
      else
        var ends := Split(halves[0], '-');
        if |ends| != 2 then None
        else
          var first :- ParseNat(ends[0]);
          var last :- ParseNat(ends[1]);
          var total :- ParseNat(halves[1]);
          Some((first, last, total))
  }

  /** The range announced covers the whole payload: it reads back as
      0 to size - 1 out of size, exactly `size` bytes. */
  lemma ContentRangeRoundTrip(size: nat)
    requires size >= 1
    ensures ParseContentRange(ContentRange(size)) == Some((0, size - 1, size))
  {
    var a := ShowNat(size - 1);
    var b := ShowNat(size);
    var s := ContentRange(size);
    assert s == "bytes " + ("0-" + a + "/" + b);
    assert s[6..] == "0-" + a + "/" + b;
    ShowNatHasNo(size - 1, '/');
    ShowNatHasNo(size - 1, '-');
    ShowNatHasNo(size, '/');
    RangeHalves(a, b);
    RangeEnds(a);
    ParseShowNat(size - 1);
    ParseShowNat(size);
    ParseShowNat(0);
    assert ShowNat(0) == "0";
  }

  lemma RangeHalves(a: string, b: string)
    requires '/' !in a && '/' !in b
    ensures Split("0-" + a + "/" + b, '/') == ["0-" + a, b]
  {
    assert '/' !in "0-" + a by {
      assert "0-" + a == ['0', '-'] + a;
    }
    assert Join(["0-" + a, b], '/') == "0-" + a + "/" + b;
    JoinSplit(["0-" + a, b], '/');
  }

  lemma RangeEnds(a: string)
    requires '-' !in a
    ensures Split("0-" + a, '-') == ["0", a]
  {
    assert Join(["0", a], '-') == "0-" + a;
    JoinSplit(["0", a], '-');
  }

  /** The upload session URL an answer carries: `None` when the value is
      absent or empty; a value that is not a string is no URL. */
  function SessionUploadUrl(resp: HttpResponse): (r: Result<Option<string>, Error>)
    ensures r.Success? && r.value.Some? ==> r.value.value != ""
    ensures resp.json.Some? && resp.json.value.JObj? && !Truthy(GetOr(resp.json.value.fields, "uploadUrl")) ==>
      r == Success(None)
    ensures r.Success? && r.value.Some? ==>
      && resp.json.Some? && resp.json.value.JObj?
      && GetOr(resp.json.value.fields, "uploadUrl") == JStr(r.value.value)
    ensures r.Failure? <==>
      || resp.json.None? || !resp.json.value.JObj?
      || (Truthy(GetOr(resp.json.value.fields, "uploadUrl")) && !GetOr(resp.json.value.fields, "uploadUrl").JStr?)
  {
    if resp.json.None? then Failure(JsonDecodeError)
    else if !resp.json.value.JObj? then Failure(TypeError("session reply is not an object"))
    else
      var u := GetOr(resp.json.value.fields, "uploadUrl");
      if !Truthy(u) then Success(None)
      else if u.JStr? then Success(Some(u.s))
      else Failure(InvalidUrl)
  }
}
