/** The `Graph` client class: its authenticated request, its paging loop and
    its drive operations, each proved to agree with a function of the
    client's state built from the `Auth`, `Paging` and `Drive` modules. */
module GraphService {
  import opened Wrappers
  import opened Strings
  import opened JsonValues
  import opened Http
  import opened Paging
  import opened Auth
  import opened Drive
  import opened Utils

  const DefaultGraphUrl := "https://graph.microsoft.com/v1.0/"

  /** `graph_url`: the configured `base_url` unless it is absent or empty. */
  function GraphUrl(baseUrl: Option<string>): (u: string)
    ensures baseUrl.Some? && baseUrl.value != "" ==> u == baseUrl.value
    ensures baseUrl.None? || baseUrl.value == "" ==> u == DefaultGraphUrl
  {
    if baseUrl.Some? && baseUrl.value != "" then baseUrl.value else DefaultGraphUrl
  }

  /** What a client is built from and never changes: its Graph URL, the world
      it talks to, where pages keep their entities and links, the two
      library string functions it calls, `urlparse` and `quote`, and how
      `request` resends after a 401: `Stale` is the code as written, `Fresh`
      the corrected resend. */
  datatype Context = Context(
    graphUrl: string,
    env: Env,
    paging: PageConfig,
    urlParse: string -> UrlSplit,
    quote: string -> string,
    resend: Resend)

  /** A GET of `url` through `request`. */
  function Get(st: AuthState, cx: Context, url: string): Effect<HttpResponse>
  {
    Exchange(st, cx.env, Call("GET", url, NoOptions), cx.resend)
  }

  /** Every request sent from index `from` on carries `call`. */
  predicate SentFor(sent: seq<HttpRequest>, from: nat, call: Call)
  {
    forall i :: from <= i < |sent| ==> Carries(sent[i], call)
  }

  /** What `request` returns for a call, seen from the log it leaves. */
  lemma ExchangeSentFor(st: AuthState, cx: Context, call: Call)
    ensures var x := Exchange(st, cx.env, call, cx.resend);
      && st.sent <= x.after.sent && SentFor(x.after.sent, |st.sent|, call)
      && (x.result.Success? ==> |x.after.sent| > |st.sent| && x.result.value == cx.env.upstream(Last(x.after.sent)))
  {
  }

  // ---------------------------------------------------------------------------
  // Paging

  /** The call for one page: the caller's arguments unless the URL carries a
      `$skiptoken`. */
  function PageCall(url: string, args: Args): Call
  {
    Call("GET", url, Options(None, PageParams(url, args), None, None))
  }

  datatype Walk = Walk(pages: seq<Fetched>, after: AuthState)

  /** An answer the exchange returns for a call answers a request to the
      call's URL, so a link it carries ranks below that URL. */
  lemma ExchangeLinkDescends(st: AuthState, cx: Context, call: Call, rank: string -> nat)
    requires CursorsDescend(cx.env.upstream, cx.paging, rank)
    requires Exchange(st, cx.env, call, cx.resend).result.Success?
    ensures LinkDescends(Exchange(st, cx.env, call, cx.resend).result.value, call.url, cx.paging, rank)
  {
    var x := Exchange(st, cx.env, call, cx.resend);
    var req := Last(x.after.sent);
    assert x.after.sent[|x.after.sent| - 1] == req;
    assert LinkDescends(Reply(cx.env.upstream, req), req.url, cx.paging, rank);
  }

  /** `__get_all_paged_entities` from `url` on: each page is fetched through
      `request` and read with the `ok` status test; the walk goes on while
      pages carry a link. */
  function PagedWalk(st: AuthState, cx: Context, url: string, args: Args, rank: string -> nat): (w: Walk)
    requires CursorsDescend(cx.env.upstream, cx.paging, rank)
    ensures Chained(url, w.pages)
    ensures st.sent <= w.after.sent
    decreases rank(url)
  {
    var x := Exchange(st, cx.env, PageCall(url, args), cx.resend);
    var step := PageStep(x.result, false, cx.paging);
    if step.Page? && step.cursor.Next? then
      ExchangeLinkDescends(st, cx, PageCall(url, args), rank);
      var rest := PagedWalk(x.after, cx, step.cursor.url, args, rank);
      ChainedCons(url, step, rest.pages);
      Walk([Fetched(url, step)] + rest.pages, rest.after)
    else
      Walk([Fetched(url, step)], x.after)
  }

  /** A page read from the upstream's answer to a request the walk sent for
      that page's URL, from index `from` of the log on. */
  ghost predicate PageAnswered(p: Fetched, sent: seq<HttpRequest>, from: nat, cx: Context)
  {
    exists j :: from <= j < |sent| && sent[j].url == p.url && p.step == ReadPage(cx.env.upstream(sent[j]), false, cx.paging)
  }

  /** A page is either read from an answer, or `request` raised for it. */
  ghost predicate PageRead(p: Fetched, sent: seq<HttpRequest>, from: nat, cx: Context)
  {
    PageAnswered(p, sent, from, cx) || (p.step.Halted? && RequestError(p.step.error))
  }

  /** A request sent for one of the pages. */
  ghost predicate RequestFor(req: HttpRequest, pages: seq<Fetched>, args: Args)
  {
    exists i :: 0 <= i < |pages| && Carries(req, PageCall(pages[i].url, args))
  }

  /** Every page of the walk is read from the upstream (or its request
      raised), and every request the walk sent is the call for one of its
      pages. */
  ghost predicate WalkRead(w: Walk, from: nat, cx: Context, args: Args)
  {
    && (forall i :: 0 <= i < |w.pages| ==> PageRead(w.pages[i], w.after.sent, from, cx))
    && (forall j :: from <= j < |w.after.sent| ==> RequestFor(w.after.sent[j], w.pages, args))
  }

  /** A page read from a request sent at or after `mid` is read from one sent
      at or after `from`, also in a longer log. */
  lemma PageReadWiden(p: Fetched, sent: seq<HttpRequest>, longer: seq<HttpRequest>, from: nat, mid: nat, cx: Context)
    requires from <= mid && sent <= longer
    requires PageRead(p, sent, mid, cx)
    ensures PageRead(p, longer, from, cx)
  {
    if PageAnswered(p, sent, mid, cx) {
      var j :| mid <= j < |sent| && sent[j].url == p.url && p.step == ReadPage(cx.env.upstream(sent[j]), false, cx.paging);
      assert longer[j] == sent[j];
    }
  }

  /** The first page of a walk, in the log of the whole walk. */
  lemma FirstPageRead(st: AuthState, cx: Context, url: string, args: Args, longer: seq<HttpRequest>)
    requires Exchange(st, cx.env, PageCall(url, args), cx.resend).after.sent <= longer
    ensures var x := Exchange(st, cx.env, PageCall(url, args), cx.resend);
      && PageRead(Fetched(url, PageStep(x.result, false, cx.paging)), longer, |st.sent|, cx)
      && forall j :: |st.sent| <= j < |x.after.sent| ==> Carries(x.after.sent[j], PageCall(url, args))
  {
    var call := PageCall(url, args);
    var x := Exchange(st, cx.env, call, cx.resend);
    ExchangeSentFor(st, cx, call);
    ExchangeErrors(st, cx.env, call, cx.resend);
    var p := Fetched(url, PageStep(x.result, false, cx.paging));
    if x.result.Success? {
      var j := |x.after.sent| - 1;
      assert x.after.sent[j] == Last(x.after.sent);
      assert Carries(x.after.sent[j], call);
      assert longer[j] == x.after.sent[j];
      assert PageAnswered(p, longer, |st.sent|, cx);
    }
  }

  /** A first page and the requests sent for it, put in front of a walk
      whose requests follow them. */
  lemma WalkReadCons(first: Fetched, rest: Walk, sent: seq<HttpRequest>, from: nat, cx: Context, args: Args)
    requires from <= |sent| && sent <= rest.after.sent
    requires PageRead(first, rest.after.sent, from, cx)
    requires forall j :: from <= j < |sent| ==> Carries(sent[j], PageCall(first.url, args))
    requires WalkRead(rest, |sent|, cx, args)
    ensures WalkRead(Walk([first] + rest.pages, rest.after), from, cx, args)
  {
    var w := Walk([first] + rest.pages, rest.after);
    forall i | 0 <= i < |w.pages| ensures PageRead(w.pages[i], w.after.sent, from, cx) {
      if i > 0 {
        assert w.pages[i] == rest.pages[i - 1];
        PageReadWiden(rest.pages[i - 1], rest.after.sent, rest.after.sent, from, |sent|, cx);
      }
    }
    forall j | from <= j < |w.after.sent| ensures RequestFor(w.after.sent[j], w.pages, args) {
      if j < |sent| {
        assert w.after.sent[j] == sent[j];
        assert Carries(w.after.sent[j], PageCall(w.pages[0].url, args));
      } else {
        assert RequestFor(rest.after.sent[j], rest.pages, args);
        var i :| 0 <= i < |rest.pages| && Carries(rest.after.sent[j], PageCall(rest.pages[i].url, args));
        assert w.pages[i + 1] == rest.pages[i];
      }
    }
  }

  /** The walk reads every page from the upstream's answer to a request it
      sent for that page's URL (unless `request` raised for it), and sends
      nothing but the calls for its pages. */
  lemma {:induction false} PagedWalkRead(st: AuthState, cx: Context, url: string, args: Args, rank: string -> nat)
    requires CursorsDescend(cx.env.upstream, cx.paging, rank)
    ensures WalkRead(PagedWalk(st, cx, url, args, rank), |st.sent|, cx, args)
    decreases rank(url)
  {
    var call := PageCall(url, args);
    var x := Exchange(st, cx.env, call, cx.resend);
    var step := PageStep(x.result, false, cx.paging);
    if step.Page? && step.cursor.Next? {
      ExchangeLinkDescends(st, cx, call, rank);
      var rest := PagedWalk(x.after, cx, step.cursor.url, args, rank);
      PagedWalkRead(x.after, cx, step.cursor.url, args, rank);
      FirstPageRead(st, cx, url, args, rest.after.sent);
      WalkReadCons(Fetched(url, step), rest, x.after.sent, |st.sent|, cx, args);
    } else {
      FirstPageRead(st, cx, url, args, x.after.sent);
      WalkReadCons(Fetched(url, step), Walk([], x.after), x.after.sent, |st.sent|, cx, args);
      assert [Fetched(url, step)] + [] == [Fetched(url, step)];
    }
  }

  /** The walk from the start consists of the pages read so far followed by
      the walk still to come. */
  ghost predicate Resumes(w0: Walk, done: seq<Fetched>, rest: Walk)
  {
    w0.pages == done + rest.pages && w0.after == rest.after
  }

  /** Where the paging loop stands: `entities` and `count` are what the
      pages read so far yielded and counted (the page at a link counts as
      soon as the link is seen), and the walk from the start is those pages
      followed by the walk from `cursor`, or those pages alone when `cursor`
      is no link. */
  ghost predicate PagingAt(w0: Walk, done: seq<Fetched>, cursor: Cursor, entities: seq<Json>, count: nat,
                           st: AuthState, cx: Context, args: Args, rank: string -> nat)
    requires CursorsDescend(cx.env.upstream, cx.paging, rank)
  {
    && entities == Yielded(done)
    && count == (if cursor.End? then |done| else |done| + 1)
    && |done| + (if cursor.Next? then 1 else 0) <= |w0.pages|
    && (cursor.Next? ==> Resumes(w0, done, PagedWalk(st, cx, cursor.url, args, rank)))
    && (!cursor.Next? ==>
          && w0 == Walk(done, st) && |done| >= 1
          && Last(done).step.Page? && Last(done).step.cursor == cursor)
  }

  lemma PagingStart(st: AuthState, cx: Context, url: string, args: Args, rank: string -> nat)
    requires CursorsDescend(cx.env.upstream, cx.paging, rank)
    ensures PagingAt(PagedWalk(st, cx, url, args, rank), [], Next(url), [], 1, st, cx, args, rank)
  {
    var w0 := PagedWalk(st, cx, url, args, rank);
    assert [] + w0.pages == w0.pages;
  }

  /** A page request that raised ends the walk there. */
  lemma PagingHalt(w0: Walk, done: seq<Fetched>, url: string, entities: seq<Json>, count: nat,
                   st: AuthState, cx: Context, args: Args, rank: string -> nat, step: Step, after: AuthState)
    requires CursorsDescend(cx.env.upstream, cx.paging, rank)
    requires PagingAt(w0, done, Next(url), entities, count, st, cx, args, rank)
    requires var x := Exchange(st, cx.env, PageCall(url, args), cx.resend);
      step == PageStep(x.result, false, cx.paging) && after == x.after
    requires step.Halted?
    ensures entities == Yielded(w0.pages) && Failure(step.error) == Outcome(w0.pages) && after == w0.after
  {
    WalkAdvance(w0, done, st, cx, url, args, rank, step, after);
    YieldedSnoc(done, Fetched(url, step));
  }

  /** A page that was read joins the pages read so far. */
  lemma PagingPage(w0: Walk, done: seq<Fetched>, url: string, entities: seq<Json>, count: nat,
                   st: AuthState, cx: Context, args: Args, rank: string -> nat, step: Step, after: AuthState)
    requires CursorsDescend(cx.env.upstream, cx.paging, rank)
    requires PagingAt(w0, done, Next(url), entities, count, st, cx, args, rank)
    requires var x := Exchange(st, cx.env, PageCall(url, args), cx.resend);
      step == PageStep(x.result, false, cx.paging) && after == x.after
    requires step.Page?
    ensures PagingAt(w0, done + [Fetched(url, step)], step.cursor, entities + step.entities,
                     if step.cursor.End? then count else count + 1, after, cx, args, rank)
  {
    var page := Fetched(url, step);
    WalkAdvance(w0, done, st, cx, url, args, rank, step, after);
    YieldedSnoc(done, page);
    assert Last(done + [page]) == page;
  }

  /** One more page of a resumed walk: the page read from `url` joins the
      pages read so far, and either the walk goes on from its link, which
      ranks below `url`, or it is complete. */
  lemma WalkAdvance(w0: Walk, done: seq<Fetched>, st: AuthState, cx: Context, url: string, args: Args,
                    rank: string -> nat, step: Step, after: AuthState)
    requires CursorsDescend(cx.env.upstream, cx.paging, rank)
    requires Resumes(w0, done, PagedWalk(st, cx, url, args, rank))
    requires var x := Exchange(st, cx.env, PageCall(url, args), cx.resend);
      step == PageStep(x.result, false, cx.paging) && after == x.after
    ensures step.Page? && step.cursor.Next? ==>
      && rank(step.cursor.url) < rank(url)
      && Resumes(w0, done + [Fetched(url, step)], PagedWalk(after, cx, step.cursor.url, args, rank))
    ensures !(step.Page? && step.cursor.Next?) ==> w0 == Walk(done + [Fetched(url, step)], after)
  {
    var page := Fetched(url, step);
    if step.Page? && step.cursor.Next? {
      ExchangeLinkDescends(st, cx, PageCall(url, args), rank);
      var rest := PagedWalk(after, cx, step.cursor.url, args, rank);
      assert done + ([page] + rest.pages) == done + [page] + rest.pages;
    }
  }

  /** The loop has left the walk's last page: what it holds is what the walk
      yields, and its count or the failure of the last link is the walk's
      outcome. */
  lemma PagingExit(w0: Walk, done: seq<Fetched>, cursor: Cursor, entities: seq<Json>, count: nat,
                   st: AuthState, cx: Context, args: Args, rank: string -> nat)
    requires CursorsDescend(cx.env.upstream, cx.paging, rank)
    requires PagingAt(w0, done, cursor, entities, count, st, cx, args, rank) && !cursor.Next?
    ensures entities == Yielded(w0.pages) && st == w0.after
    ensures cursor.End? ==> Outcome(w0.pages) == Success(count)
    ensures cursor.BadCursor? ==> Outcome(w0.pages) == Failure(CursorFailure(cursor.value))
  {
  }

  /** A page request: a GET with the caller's arguments exactly when its URL
      lacks `$skiptoken`, and no body. */
  predicate PageRequest(req: HttpRequest, args: Args)
  {
    req.verb == "GET" && req.params == PageParams(req.url, args) && req.json.None? && req.data.None?
  }

  /** The requests one page exchange sends are page requests. */
  lemma PageExchangeRequests(st: AuthState, cx: Context, url: string, args: Args)
    ensures PageRequestsFrom(|st.sent|, Exchange(st, cx.env, PageCall(url, args), cx.resend).after.sent, args)
  {
    var x := Exchange(st, cx.env, PageCall(url, args), cx.resend);
    forall i | |st.sent| <= i < |x.after.sent| ensures PageRequest(x.after.sent[i], args) {
      assert Carries(x.after.sent[i], PageCall(url, args));
    }
  }

  /** The requests from index `from` on are all page requests. */
  predicate PageRequestsFrom(from: nat, sent: seq<HttpRequest>, args: Args)
  {
    forall i :: from <= i < |sent| ==> PageRequest(sent[i], args)
  }

  lemma PageRequestsExtend(from: nat, a: seq<HttpRequest>, b: seq<HttpRequest>, args: Args)
    requires from <= |a| && a <= b
    requires PageRequestsFrom(from, a, args) && PageRequestsFrom(|a|, b, args)
    ensures PageRequestsFrom(from, b, args)
  {
    forall i | from <= i < |b| ensures PageRequest(b[i], args) {
      if i < |a| {
        assert b[i] == a[i];
      }
    }
  }

  /** Every request the walk sends is a page request. */
  lemma {:induction false} PagedWalkRequests(st: AuthState, cx: Context, url: string, args: Args, rank: string -> nat)
    requires CursorsDescend(cx.env.upstream, cx.paging, rank)
    ensures PageRequestsFrom(|st.sent|, PagedWalk(st, cx, url, args, rank).after.sent, args)
    decreases rank(url)
  {
    var x := Exchange(st, cx.env, PageCall(url, args), cx.resend);
    var step := PageStep(x.result, false, cx.paging);
    PageExchangeRequests(st, cx, url, args);
    if step.Page? && step.cursor.Next? {
      ExchangeLinkDescends(st, cx, PageCall(url, args), rank);
      PagedWalkRequests(x.after, cx, step.cursor.url, args, rank);
      var rest := PagedWalk(x.after, cx, step.cursor.url, args, rank);
      PageRequestsExtend(|st.sent|, x.after.sent, rest.after.sent, args);
    }
  }

  /** As written, a page answered with 401 ends the walk: the resend is
      answered with 401 too, which the `ok` test rejects. */
  lemma StalePageRejected(st: AuthState, cx: Context, url: string, args: Args)
    requires cx.resend == Stale
    ensures var x := Exchange(st, cx.env, PageCall(url, args), cx.resend);
      Retried(st, x, cx.env) ==> PageStep(x.result, false, cx.paging).Halted?
  {
    StaleRetryRejected(st, cx.env, PageCall(url, args));
  }

  // ---------------------------------------------------------------------------
  // Site and drive resolution

  /** `_get_sharepoint_site_id(site)`. */
  function SiteIdSpec(st: AuthState, cx: Context, site: string): Effect<Json>
  {
    var x := Get(st, cx, SiteIdUrl(cx.graphUrl, cx.urlParse(site)));
    if x.result.Failure? then Effect(Failure(x.result.error), x.after)
    else Effect(OkField(x.result.value, "id"), x.after)
  }

  /** The site id lookup is one GET of the site's URL through `request`: a
      refused answer gives `None`, an ok one the `id` of its body. */
  lemma SiteIdLookup(st: AuthState, cx: Context, site: string)
    ensures var x := SiteIdSpec(st, cx, site);
      var call := Call("GET", SiteIdUrl(cx.graphUrl, cx.urlParse(site)), NoOptions);
      && st.sent <= x.after.sent && SentFor(x.after.sent, |st.sent|, call)
      && (x.result.Success? ==>
            && |x.after.sent| > |st.sent|
            && var resp := cx.env.upstream(Last(x.after.sent));
            && (!IsOk(resp.status) ==> x.result.value == JNull)
            && (IsOk(resp.status) ==> resp.json.Some? && resp.json.value.JObj? && x.result.value == GetOr(resp.json.value.fields, "id")))
  {
    ExchangeSentFor(st, cx, Call("GET", SiteIdUrl(cx.graphUrl, cx.urlParse(site)), NoOptions));
  }

  /** `_get_site_documents_drive_url(site, document_lib)`: `None` without a
      site id (Python falsiness), otherwise the drive root read from the
      drive lookup. */
  function DriveUrlSpec(st: AuthState, cx: Context, site: string, lib: Option<string>): Effect<Option<string>>
  {
    var sid := SiteIdSpec(st, cx, site);
    if sid.result.Failure? then Effect(Failure(sid.result.error), sid.after)
    else if !Truthy(sid.result.value) then Effect(Success(None), sid.after)
    else if !sid.result.value.JStr? then Effect(Failure(TypeError("can only concatenate str to str")), sid.after)
    else
      var url := DrivesUrl(cx.graphUrl, sid.result.value.s, lib);
      var x := Get(sid.after, cx, url);
      if x.result.Failure? then Effect(Failure(x.result.error), x.after)
      else Effect(DriveRoot(url, x.result.value, lib), x.after)
  }

  /** The drive lookup after the site id lookup: a failed or falsy site id
      ends it with no drive request (a falsy one with `None`), a site id that
      is not a string raises, and otherwise it sends only GETs of the drives
      URL of that id and returns what `DriveRoot` reads from the answer to
      the last one. */
  lemma DriveUrlLookup(st: AuthState, cx: Context, site: string, lib: Option<string>)
    ensures var sid := SiteIdSpec(st, cx, site);
      var x := DriveUrlSpec(st, cx, site, lib);
      && (sid.result.Failure? ==> x == Effect(Failure(sid.result.error), sid.after))
      && (sid.result.Success? && !Truthy(sid.result.value) ==> x == Effect(Success(None), sid.after))
      && (sid.result.Success? && Truthy(sid.result.value) && !sid.result.value.JStr? ==>
            x.result.Failure? && x.after == sid.after)
      && (sid.result.Success? && Truthy(sid.result.value) && sid.result.value.JStr? ==>
            var url := DrivesUrl(cx.graphUrl, sid.result.value.s, lib);
            && sid.after.sent <= x.after.sent
            && SentFor(x.after.sent, |sid.after.sent|, Call("GET", url, NoOptions))
            && (x.result.Success? ==>
                  && |x.after.sent| > |sid.after.sent|
                  && x.result == DriveRoot(url, cx.env.upstream(Last(x.after.sent)), lib)))
  {
    var sid := SiteIdSpec(st, cx, site);
    if sid.result.Success? && Truthy(sid.result.value) && sid.result.value.JStr? {
      ExchangeSentFor(sid.after, cx, Call("GET", DrivesUrl(cx.graphUrl, sid.result.value.s, lib), NoOptions));
    }
  }

  /** `_get_file_url(path, site, document_lib)`: adding the path to a missing
      drive root raises. */
  function FileUrlSpec(st: AuthState, cx: Context, path: string, site: string, lib: Option<string>): Effect<string>
  {
    var d := DriveUrlSpec(st, cx, site, lib);
    if d.result.Failure? then Effect(Failure(d.result.error), d.after)
    else if d.result.value.None? then Effect(Failure(TypeError("unsupported operand type(s) for +: 'NoneType' and 'str'")), d.after)
    else Effect(Success(FileUrl(d.result.value.value, path, cx.quote)), d.after)
  }

  /** `_get_file_upload_url(path, site, document_lib, session)`. */
  function UploadUrlSpec(st: AuthState, cx: Context, path: string, site: string, lib: Option<string>, session: bool): (x: Effect<string>)
    ensures var f := FileUrlSpec(st, cx, path, site, lib);
      && (x.result.Success? <==> f.result.Success?)
      && (x.result.Success? ==> x.result.value == UploadUrl(f.result.value, session))
  {
    var f := FileUrlSpec(st, cx, path, site, lib);
    if f.result.Failure? then f else Effect(Success(UploadUrl(f.result.value, session)), f.after)
  }

  /** `_get_file_download_url(path, site, document_lib)`. */
  function DownloadUrlSpec(st: AuthState, cx: Context, path: string, site: string, lib: Option<string>): Effect<Json>
  {
    var d := DriveUrlSpec(st, cx, site, lib);
    if d.result.Failure? then Effect(Failure(d.result.error), d.after)
    else if d.result.value.None? then Effect(Success(JNull), d.after)
    else
      var x := Get(d.after, cx, DetailsUrl(d.result.value.value, path));
      if x.result.Failure? then Effect(Failure(x.result.error), x.after)
      else Effect(OkField(x.result.value, "@microsoft.graph.downloadUrl"), x.after)
  }

  /** The download URL lookup after the drive lookup: a failed drive lookup
      is raised again and a missing drive root gives `None`, both with no
      details request; otherwise it sends only GETs of the details URL
      `drive_url + ":/" + path` (the path as given, not quoted) and returns
      `None` for a refused answer and the `@microsoft.graph.downloadUrl` of
      the answer to the last one otherwise. */
  lemma DownloadUrlLookup(st: AuthState, cx: Context, path: string, site: string, lib: Option<string>)
    ensures var d := DriveUrlSpec(st, cx, site, lib);
      var x := DownloadUrlSpec(st, cx, path, site, lib);
      && (d.result.Failure? ==> x == Effect(Failure(d.result.error), d.after))
      && (d.result == Success(None) ==> x == Effect(Success(JNull), d.after))
      && (d.result.Success? && d.result.value.Some? ==>
            && d.after.sent <= x.after.sent
            && SentFor(x.after.sent, |d.after.sent|, Call("GET", DetailsUrl(d.result.value.value, path), NoOptions))
            && (x.result.Success? ==>
                  && |x.after.sent| > |d.after.sent|
                  && var resp := cx.env.upstream(Last(x.after.sent));
                  && (!IsOk(resp.status) ==> x.result.value == JNull)
                  && (IsOk(resp.status) ==>
                        && resp.json.Some? && resp.json.value.JObj?
                        && x.result.value == GetOr(resp.json.value.fields, "@microsoft.graph.downloadUrl"))))
  {
    var d := DriveUrlSpec(st, cx, site, lib);
    if d.result.Success? && d.result.value.Some? {
      ExchangeSentFor(d.after, cx, Call("GET", DetailsUrl(d.result.value.value, path), NoOptions));
    }
  }

  /** The unauthenticated GET `get_file` downloads with. */
  function Download(url: string): HttpRequest
  {
    HttpRequest("GET", url, map[], None, None, None)
  }

  /** `get_file(path, site, document_lib)`: the file's bytes, `None` when the
      download is refused; a missing download URL is no URL to fetch. */
  function GetFileSpec(st: AuthState, cx: Context, path: string, site: string, lib: Option<string>): Effect<Option<Bytes>>
  {
    FetchDownload(DownloadUrlSpec(st, cx, path, site, lib), cx.env.upstream)
  }

  /** Any exception inside `add_file` is caught and gives `None`. */
  function Caught(x: Effect<HttpResponse>): Effect<Option<HttpResponse>>
  {
    if x.result.Failure? then Effect(Success(None), x.after) else Effect(Success(Some(x.result.value)), x.after)
  }

  /** `add_file(content, path, site, document_lib)`: at most the size limit,
      one PUT to the content URL; above it, a POST creating an upload session
      and, when that succeeds with an upload URL, one PUT of the whole payload
      there with its `Content-Range` and `Content-Length`. A refused session
      or a missing upload URL returns the session answer. */
  function AddFileSpec(st: AuthState, cx: Context, content: Bytes, path: string, site: string, lib: Option<string>): (x: Effect<Option<HttpResponse>>)
    ensures x.result.Success?
  {
    var size := |content|;
    var target := UploadUrlSpec(st, cx, path, site, lib, UsesUploadSession(size));
    if target.result.Failure? then Effect(Success(None), target.after)
    else if !UsesUploadSession(size) then
      Caught(Exchange(target.after, cx.env, Call("PUT", target.result.value, Options(None, None, None, Some(content))), cx.resend))
    else SessionUploadSpec(target.after, cx, content, target.result.value)
  }

  /** The upload session branch of `add_file`: a POST creating the session
      and, when it succeeds with an upload URL, one PUT of the whole payload
      there with its `Content-Range` and `Content-Length`. */
  function SessionUploadSpec(st: AuthState, cx: Context, content: Bytes, sessionUrl: string): (x: Effect<Option<HttpResponse>>)
    requires UsesUploadSession(|content|)
    ensures x.result.Success?
  {
    var session := SessionPost(st, cx, sessionUrl);
    if session.result.Failure? then Effect(Success(None), session.after)
    else if !IsOk(session.result.value.status) then Effect(Success(Some(session.result.value)), session.after)
    else
      var uploadUrl := SessionUploadUrl(session.result.value);
      if uploadUrl.Failure? then Effect(Success(None), session.after)
      else if uploadUrl.value.None? then Effect(Success(Some(session.result.value)), session.after)
      else
        Caught(Exchange(session.after, cx.env,
          Call("PUT", uploadUrl.value.value, Options(Some(UploadHeaders(|content|)), None, None, Some(content))), cx.resend))
  }

  /** `update_file_metadata(payload, file_path, site, document_lib)`: a PATCH
      of the JSON payload to the file's list item fields. */
  function UpdateFileMetadataSpec(st: AuthState, cx: Context, payload: Json, filePath: string, site: string, lib: Option<string>): Effect<HttpResponse>
  {
    var f := FileUrlSpec(st, cx, filePath, site, lib);
    if f.result.Failure? then Effect(Failure(f.result.error), f.after)
    else Exchange(f.after, cx.env, Call("PATCH", f.result.value + ":/listItem/fields", Options(None, None, Some(payload), None)), cx.resend)
  }

  /** `get_file`: the download is one GET of the download URL with no headers
      at all, so without the session's token, and it leaves the session and
      the token as they were; a refused download gives `None`, otherwise the
      bytes. A download URL that is no string is no URL to fetch. */
  lemma GetFileDownload(st: AuthState, cx: Context, path: string, site: string, lib: Option<string>)
    ensures var d := DownloadUrlSpec(st, cx, path, site, lib);
      var x := GetFileSpec(st, cx, path, site, lib);
      && (d.result.Failure? ==> x == Effect(Failure(d.result.error), d.after))
      && (d.result.Success? && !d.result.value.JStr? ==> x == Effect(Failure(InvalidUrl), d.after))
      && (d.result.Success? && d.result.value.JStr? ==>
            && x.after == d.after.(sent := d.after.sent + [Last(x.after.sent)])
            && Last(x.after.sent).verb == "GET" && Last(x.after.sent).url == d.result.value.s
            && "Authorization" !in Last(x.after.sent).headers
            && (x.result == Success(None) <==> !IsOk(cx.env.upstream(Last(x.after.sent)).status))
            && (x.result.value.Some? ==> x.result.value.value == cx.env.upstream(Last(x.after.sent)).content))
  {
    var d := DownloadUrlSpec(st, cx, path, site, lib);
    FetchDownloadFacts(d, cx.env.upstream);
  }

  /** The download step of `get_file` on the outcome `d` of the download URL
      lookup. */
  function FetchDownload(d: Effect<Json>, upstream: HttpRequest -> HttpResponse): Effect<Option<Bytes>>
  {
    if d.result.Failure? then Effect(Failure(d.result.error), d.after)
    else if !d.result.value.JStr? then Effect(Failure(InvalidUrl), d.after)
    else
      var req := Download(d.result.value.s);
      var resp := upstream(req);
      var after := d.after.(sent := d.after.sent + [req]);
      if !IsOk(resp.status) then Effect(Success(None), after)
      else Effect(Success(Some(resp.content)), after)
  }

  lemma FetchDownloadFacts(d: Effect<Json>, upstream: HttpRequest -> HttpResponse)
    ensures var x := FetchDownload(d, upstream);
      && (d.result.Failure? ==> x == Effect(Failure(d.result.error), d.after))
      && (d.result.Success? && !d.result.value.JStr? ==> x == Effect(Failure(InvalidUrl), d.after))
      && (d.result.Success? && d.result.value.JStr? ==>
            && x.after == d.after.(sent := d.after.sent + [Last(x.after.sent)])
            && Last(x.after.sent).verb == "GET" && Last(x.after.sent).url == d.result.value.s
            && "Authorization" !in Last(x.after.sent).headers
            && (x.result == Success(None) <==> !IsOk(upstream(Last(x.after.sent)).status))
            && (x.result.value.Some? ==> x.result.value.value == upstream(Last(x.after.sent)).content))
  {
  }

  /** `add_file` up to the size limit: once the file URL `f` resolves, every
      request sent is a PUT of the content to `f + ":/content"`, and a
      response returned is the answer to the last of them; a file URL that
      does not resolve gives `None` and nothing more is sent. */
  lemma AddFileDirect(st: AuthState, cx: Context, content: Bytes, path: string, site: string, lib: Option<string>)
    requires !UsesUploadSession(|content|)
    ensures var f := FileUrlSpec(st, cx, path, site, lib);
      var x := AddFileSpec(st, cx, content, path, site, lib);
      && (f.result.Failure? ==> x == Effect(Success(None), f.after))
      && (f.result.Success? ==>
            && f.after.sent <= x.after.sent
            && SentFor(x.after.sent, |f.after.sent|, Call("PUT", f.result.value + ":/content", Options(None, None, None, Some(content))))
            && (x.result.value.Some? ==>
                  |x.after.sent| > |f.after.sent| && x.result.value.value == cx.env.upstream(Last(x.after.sent))))
  {
    var f := FileUrlSpec(st, cx, path, site, lib);
    if f.result.Success? {
      ExchangeSentFor(f.after, cx, Call("PUT", f.result.value + ":/content", Options(None, None, None, Some(content))));
    }
  }

  /** `add_file` above the size limit: once the file URL `f` resolves, the
      rest is the session upload from `f + ":/createUploadSession"`; a file
      URL that does not resolve gives `None`. */
  lemma AddFileThroughSession(st: AuthState, cx: Context, content: Bytes, path: string, site: string, lib: Option<string>)
    requires UsesUploadSession(|content|)
    ensures var f := FileUrlSpec(st, cx, path, site, lib);
      var x := AddFileSpec(st, cx, content, path, site, lib);
      && (f.result.Failure? ==> x == Effect(Success(None), f.after))
      && (f.result.Success? ==> x == SessionUploadSpec(f.after, cx, content, f.result.value + ":/createUploadSession"))
  {
  }

  /** The session POST of `add_file`. */
  function SessionPost(st: AuthState, cx: Context, sessionUrl: string): Effect<HttpResponse>
  {
    Exchange(st, cx.env, Call("POST", sessionUrl, NoOptions), cx.resend)
  }

  /** A refused session, or an accepted one whose answer holds no upload URL,
      is returned as it is, and no PUT follows the POST. */
  lemma SessionRefused(st: AuthState, cx: Context, content: Bytes, sessionUrl: string)
    requires UsesUploadSession(|content|)
    ensures var s := SessionPost(st, cx, sessionUrl);
      var x := SessionUploadSpec(st, cx, content, sessionUrl);
      && SentFor(s.after.sent, |st.sent|, Call("POST", sessionUrl, NoOptions))
      && (s.result.Success? && (!IsOk(s.result.value.status) || SessionUploadUrl(s.result.value) == Success(None)) ==>
            x == Effect(Success(Some(s.result.value)), s.after))
  {
    ExchangeSentFor(st, cx, Call("POST", sessionUrl, NoOptions));
  }

  /** An accepted session with upload URL `u`: after the POST every request
      sent is a PUT of the content to `u`, the first of them with the range
      headers merged with the session's auth header, and a response returned
      is the answer to the last of them. */
  lemma SessionPut(st: AuthState, cx: Context, content: Bytes, sessionUrl: string, u: string)
    requires UsesUploadSession(|content|)
    requires var s := SessionPost(st, cx, sessionUrl);
      s.result.Success? && IsOk(s.result.value.status) && SessionUploadUrl(s.result.value) == Success(Some(u))
    ensures var s := SessionPost(st, cx, sessionUrl);
      var x := SessionUploadSpec(st, cx, content, sessionUrl);
      var put := Call("PUT", u, Options(Some(UploadHeaders(|content|)), None, None, Some(content)));
      && s.after.sent <= x.after.sent
      && SentFor(x.after.sent, |s.after.sent|, put)
      && (|x.after.sent| > |s.after.sent| ==>
            MergeHeaders(Some(UploadHeaders(|content|)), s.after.authHeader, false) == Success(x.after.sent[|s.after.sent|].headers))
      && (x.result.value.Some? ==>
            |x.after.sent| > |s.after.sent| && x.result.value.value == cx.env.upstream(Last(x.after.sent)))
  {
    var s := SessionPost(st, cx, sessionUrl);
    var put := Call("PUT", u, Options(Some(UploadHeaders(|content|)), None, None, Some(content)));
    ExchangeSession(st, cx.env, Call("POST", sessionUrl, NoOptions), cx.resend);
    ExchangeSentFor(s.after, cx, put);
    ExchangeHeaders(s.after, cx.env, put, cx.resend);
  }

  /** `update_file_metadata`: once the file URL `f` resolves, every request
      sent is a PATCH of the payload as JSON to `f + ":/listItem/fields"`
      with `Content-Type: application/json`, and a response returned is the
      answer to the last of them; otherwise the failure is raised. */
  lemma UpdateFileMetadataPatch(st: AuthState, cx: Context, payload: Json, filePath: string, site: string, lib: Option<string>)
    ensures var f := FileUrlSpec(st, cx, filePath, site, lib);
      var x := UpdateFileMetadataSpec(st, cx, payload, filePath, site, lib);
      && (f.result.Failure? ==> x == Effect(Failure(f.result.error), f.after))
      && (f.result.Success? ==>
            && f.after.sent <= x.after.sent
            && SentFor(x.after.sent, |f.after.sent|, Call("PATCH", f.result.value + ":/listItem/fields", Options(None, None, Some(payload), None)))
            && (forall i :: |f.after.sent| <= i < |x.after.sent| ==>
                  "Content-Type" in x.after.sent[i].headers && x.after.sent[i].headers["Content-Type"] == "application/json")
            && (x.result.Success? ==> x.result.value == cx.env.upstream(Last(x.after.sent))))
  {
    var f := FileUrlSpec(st, cx, filePath, site, lib);
    if f.result.Success? {
      var call := Call("PATCH", f.result.value + ":/listItem/fields", Options(None, None, Some(payload), None));
      ExchangeSentFor(f.after, cx, call);
      ExchangeJsonContentType(f.after, cx.env, call, cx.resend);
    }
  }

  // ---------------------------------------------------------------------------
  // Site URLs of posted groups

  /** What a generator produced before it ended, and the exception that ended
      it, if any. */
  datatype Streamed = Streamed(yielded: seq<Json>, end: Option<Error>, after: AuthState)

  /** The group's root site answer, marked with the group id. */
  predicate MarkedSite(y: Json, entities: seq<seq<(string, Json)>>)
  {
    y.JObj? && "_id" in y.fields && exists i :: 0 <= i < |entities| && LastIdValue(entities[i]) == Some(y.fields["_id"])
  }

  /** A site marked for a later group is marked for the whole list. */
  lemma MarkedLater(entities: seq<seq<(string, Json)>>, ys: seq<Json>)
    requires |entities| > 0
    requires forall k :: 0 <= k < |ys| ==> MarkedSite(ys[k], entities[1..])
    ensures forall k :: 0 <= k < |ys| ==> MarkedSite(ys[k], entities)
  {
    forall k | 0 <= k < |ys| ensures MarkedSite(ys[k], entities) {
      var i :| 0 <= i < |entities[1..]| && LastIdValue(entities[1..][i]) == Some(ys[k].fields["_id"]);
      assert entities[1..][i] == entities[i + 1];
    }
  }

  /** The first group's marked site goes in front. */
  lemma MarkedFirst(entities: seq<seq<(string, Json)>>, y: Json, ys: seq<Json>)
    requires |entities| > 0 && y.JObj? && "_id" in y.fields && LastIdValue(entities[0]) == Some(y.fields["_id"])
    requires forall k :: 0 <= k < |ys| ==> MarkedSite(ys[k], entities)
    ensures forall k :: 0 <= k < |[y] + ys| ==> MarkedSite(([y] + ys)[k], entities)
  {
    var all := [y] + ys;
    assert MarkedSite(all[0], entities);
    forall k | 1 <= k < |all| ensures MarkedSite(all[k], entities) {
      assert all[k] == ys[k - 1];
    }
  }

  /** The root site URL of a group. */
  function SiteRootUrl(graphUrl: string, groupId: string): string
  {
    graphUrl + "groups/" + groupId + "/sites/root"
  }

  /** `y` is the decoded body of an ok answer, with `_id` set to the group id. */
  ghost predicate SiteFrom(y: Json, gid: Json, resp: HttpResponse)
  {
    IsOk(resp.status) && resp.json.Some? && resp.json.value.JObj? && y == JObj(resp.json.value.fields["_id" := gid])
  }

  /** One round of `__get_all_siteurls`: the group's root site marked with
      `_id`, nothing when the lookup is refused, or the exception that ends
      the stream (a group without an id, a failed request, an answer that is
      no object). */
  function SiteRound(st: AuthState, cx: Context, entity: seq<(string, Json)>): (x: Effect<Option<Json>>)
    ensures x.result.Success? && x.result.value.Some? ==>
      var y := x.result.value.value;
      y.JObj? && "_id" in y.fields && LastIdValue(entity) == Some(y.fields["_id"])
    ensures st.sent <= x.after.sent
  {
    var gid := LastIdValue(entity);
    if gid.None? then Effect(Failure(UnboundLocalError("groupid")), st)
    else if !gid.value.JStr? then Effect(Failure(TypeError("can only concatenate str to str")), st)
    else
      var x := Get(st, cx, SiteRootUrl(cx.graphUrl, gid.value.s));
      if x.result.Failure? then Effect(Failure(x.result.error), x.after)
      else if !IsOk(x.result.value.status) then Effect(Success(None), x.after)
      else
        var body := x.result.value.json;
        if body.None? then Effect(Failure(JsonDecodeError), x.after)
        else if !body.value.JObj? then Effect(Failure(TypeError("site answer is not an object")), x.after)
        else Effect(Success(Some(JObj(body.value.fields["_id" := gid.value]))), x.after)
  }

  /** One round of the site stream: a group without an id, or with an id
      that is not a string, raises before any request; otherwise the round
      sends only GETs of the group's root site URL and, when `request`
      returns, yields nothing exactly when the answer is refused, and the
      answer's body marked with the group id when it is ok. An ok answer
      whose body is not a JSON object raises. */
  lemma SiteRoundLookup(st: AuthState, cx: Context, entity: seq<(string, Json)>)
    ensures var x := SiteRound(st, cx, entity);
      var gid := LastIdValue(entity);
      && (gid.None? ==> x == Effect(Failure(UnboundLocalError("groupid")), st))
      && (gid.Some? && !gid.value.JStr? ==> x.result.Failure? && x.after == st)
      && (gid.Some? && gid.value.JStr? ==>
            && st.sent <= x.after.sent
            && SentFor(x.after.sent, |st.sent|, Call("GET", SiteRootUrl(cx.graphUrl, gid.value.s), NoOptions))
            && (x.result.Success? ==> |x.after.sent| > |st.sent|)
            && (|x.after.sent| > |st.sent| ==>
                  var resp := cx.env.upstream(Last(x.after.sent));
                  && (x.result.Success? && x.result.value.None? <==> x.result.Success? && !IsOk(resp.status))
                  && (x.result.Success? && x.result.value.Some? ==> SiteFrom(x.result.value.value, gid.value, resp))
                  && (IsOk(resp.status) ==>
                        (x.result.Success? <==> resp.json.Some? && resp.json.value.JObj?))))
  {
    var gid := LastIdValue(entity);
    if gid.Some? && gid.value.JStr? {
      var call := Call("GET", SiteRootUrl(cx.graphUrl, gid.value.s), NoOptions);
      ExchangeSentFor(st, cx, call);
      ExchangeSends(st, cx.env, call, cx.resend);
      ExchangeErrors(st, cx.env, call, cx.resend);
    }
  }

  /** The rounds of a generator over `entities`: each round yields a value,
      yields nothing, or raises, which ends the stream. */
  function SiteStream(st: AuthState, entities: seq<seq<(string, Json)>>,
                      round: (AuthState, seq<(string, Json)>) -> Effect<Option<Json>>): Streamed
    decreases |entities|
  {
    if entities == [] then Streamed([], None, st)
    else
      var x := round(st, entities[0]);
      if x.result.Failure? then Streamed([], Some(x.result.error), x.after)
      else
        var rest := SiteStream(x.after, entities[1..], round);
        if x.result.value.None? then rest
        else Streamed([x.result.value.value] + rest.yielded, rest.end, rest.after)
  }

  /** The round of `__get_all_siteurls` for the client's context. */
  function SiteRounds(cx: Context): (AuthState, seq<(string, Json)>) -> Effect<Option<Json>>
  {
    (st: AuthState, entity: seq<(string, Json)>) => SiteRound(st, cx, entity)
  }

  /** `__get_all_siteurls(posted_entities)`: for each posted group, its root
      site marked with `_id`, skipping groups whose lookup is refused; the
      first exception ends the stream. */
  function SiteUrlsSpec(st: AuthState, cx: Context, entities: seq<seq<(string, Json)>>): Streamed
  {
    SiteStream(st, entities, SiteRounds(cx))
  }

  /** The site stream yields at most one site per group, each marked with the
      id of a posted group, and only adds to the requests sent. */
  lemma {:induction false} SiteUrlsMarked(st: AuthState, cx: Context, entities: seq<seq<(string, Json)>>)
    ensures var s := SiteUrlsSpec(st, cx, entities);
      && |s.yielded| <= |entities|
      && (forall k :: 0 <= k < |s.yielded| ==> MarkedSite(s.yielded[k], entities))
      && st.sent <= s.after.sent
    decreases |entities|
  {
    if entities != [] {
      var x := SiteRound(st, cx, entities[0]);
      if x.result.Success? {
        var rest := SiteUrlsSpec(x.after, cx, entities[1..]);
        SiteUrlsMarked(x.after, cx, entities[1..]);
        MarkedLater(entities, rest.yielded);
        if x.result.value.Some? {
          MarkedFirst(entities, x.result.value.value, rest.yielded);
        }
      }
    }
  }

  /** `y` is the site the stream yields for group `entity`: the group has a
      string id, and `y` is the ok answer's body, marked with that id, to a
      GET of the group's root site URL sent from index `from` of the log on. */
  ghost predicate SiteAnswered(y: Json, entity: seq<(string, Json)>, sent: seq<HttpRequest>, from: nat, cx: Context)
  {
    var gid := LastIdValue(entity);
    && gid.Some? && gid.value.JStr?
    && exists j :: from <= j < |sent|
         && Carries(sent[j], Call("GET", SiteRootUrl(cx.graphUrl, gid.value.s), NoOptions))
         && SiteFrom(y, gid.value, cx.env.upstream(sent[j]))
  }

  /** `ys` are the sites of the groups at the increasing positions `idx`. */
  ghost predicate SitesOf(ys: seq<Json>, idx: seq<nat>, entities: seq<seq<(string, Json)>>,
                          sent: seq<HttpRequest>, from: nat, cx: Context)
  {
    && |idx| == |ys|
    && (forall a, b :: 0 <= a < b < |idx| ==> idx[a] < idx[b])
    && forall k :: 0 <= k < |idx| ==> idx[k] < |entities| && SiteAnswered(ys[k], entities[idx[k]], sent, from, cx)
  }

  /** Sites of the groups after the first are sites of the whole list, one
      position on, also in a longer log and from an earlier index. */
  lemma SitesShift(ys: seq<Json>, idx: seq<nat>, entities: seq<seq<(string, Json)>>,
                   sent: seq<HttpRequest>, from: nat, mid: nat, cx: Context) returns (shifted: seq<nat>)
    requires |entities| > 0 && from <= mid
    requires SitesOf(ys, idx, entities[1..], sent, mid, cx)
    ensures SitesOf(ys, shifted, entities, sent, from, cx)
    ensures forall k :: 0 <= k < |shifted| ==> shifted[k] >= 1
  {
    shifted := seq(|idx|, k requires 0 <= k < |idx| => idx[k] + 1);
    forall k | 0 <= k < |shifted|
      ensures shifted[k] < |entities| && SiteAnswered(ys[k], entities[shifted[k]], sent, from, cx)
    {
      assert entities[1..][idx[k]] == entities[shifted[k]];
      var gid := LastIdValue(entities[shifted[k]]);
      var j :| mid <= j < |sent|
        && Carries(sent[j], Call("GET", SiteRootUrl(cx.graphUrl, gid.value.s), NoOptions))
        && SiteFrom(ys[k], gid.value, cx.env.upstream(sent[j]));
    }
  }

  /** The first group's site goes in front of the later groups' sites. */
  lemma SitesCons(y: Json, ys: seq<Json>, idx: seq<nat>, entities: seq<seq<(string, Json)>>,
                  sent: seq<HttpRequest>, from: nat, cx: Context)
    requires |entities| > 0 && SiteAnswered(y, entities[0], sent, from, cx)
    requires SitesOf(ys, idx, entities, sent, from, cx)
    requires forall k :: 0 <= k < |idx| ==> idx[k] >= 1
    ensures SitesOf([y] + ys, [0] + idx, entities, sent, from, cx)
  {
    var all := [0] + idx;
    forall k | 1 <= k < |all| ensures all[k] == idx[k - 1] && ([y] + ys)[k] == ys[k - 1] {
    }
  }

  /** The first round's site, in the log of the whole stream. */
  lemma FirstSiteAnswered(st: AuthState, cx: Context, entity: seq<(string, Json)>, longer: seq<HttpRequest>)
    requires SiteRound(st, cx, entity).result.Success? && SiteRound(st, cx, entity).result.value.Some?
    requires SiteRound(st, cx, entity).after.sent <= longer
    ensures SiteAnswered(SiteRound(st, cx, entity).result.value.value, entity, longer, |st.sent|, cx)
  {
    var x := SiteRound(st, cx, entity);
    var gid := LastIdValue(entity);
    SiteRoundLookup(st, cx, entity);
    var j := |x.after.sent| - 1;
    assert x.after.sent[j] == Last(x.after.sent) == longer[j];
  }

  /** The sites come in group order: the stream yields, for increasing group
      positions, the ok answer's body to that group's root site lookup
      marked with the group's id. */
  lemma {:induction false} SiteUrlsInOrder(st: AuthState, cx: Context, entities: seq<seq<(string, Json)>>)
    ensures var s := SiteUrlsSpec(st, cx, entities);
      exists idx :: SitesOf(s.yielded, idx, entities, s.after.sent, |st.sent|, cx)
    decreases |entities|
  {
    var s := SiteUrlsSpec(st, cx, entities);
    if entities == [] {
      assert SitesOf(s.yielded, [], entities, s.after.sent, |st.sent|, cx);
    } else {
      var x := SiteRound(st, cx, entities[0]);
      if x.result.Failure? {
        assert SitesOf(s.yielded, [], entities, s.after.sent, |st.sent|, cx);
      } else {
        var rest := SiteUrlsSpec(x.after, cx, entities[1..]);
        SiteUrlsInOrder(x.after, cx, entities[1..]);
        SiteUrlsMarked(x.after, cx, entities[1..]);
        SiteUrlsMarked(st, cx, entities);
        var idx :| SitesOf(rest.yielded, idx, entities[1..], rest.after.sent, |x.after.sent|, cx);
        var shifted := SitesShift(rest.yielded, idx, entities, rest.after.sent, |st.sent|, |x.after.sent|, cx);
        if x.result.value.Some? {
          FirstSiteAnswered(st, cx, entities[0], rest.after.sent);
          SitesCons(x.result.value.value, rest.yielded, shifted, entities, rest.after.sent, |st.sent|, cx);
          assert s.yielded == [x.result.value.value] + rest.yielded;
          assert SitesOf(s.yielded, [0] + shifted, entities, s.after.sent, |st.sent|, cx);
        } else {
          assert SitesOf(s.yielded, shifted, entities, s.after.sent, |st.sent|, cx);
        }
      }
    }
  }

  /** The site stream has produced `yielded` and is left with `rest` from
      state `st`. */
  ghost predicate SitesAt(whole: Streamed, yielded: seq<Json>, st: AuthState, rest: seq<seq<(string, Json)>>,
                          round: (AuthState, seq<(string, Json)>) -> Effect<Option<Json>>)
  {
    var s := SiteStream(st, rest, round);
    whole == Streamed(yielded + s.yielded, s.end, s.after)
  }

  /** One round of the site stream, seen from its loop. */
  lemma SitesStep(whole: Streamed, yielded: seq<Json>, st: AuthState, rest: seq<seq<(string, Json)>>,
                  round: (AuthState, seq<(string, Json)>) -> Effect<Option<Json>>,
                  r: Result<Option<Json>, Error>, after: AuthState)
    requires rest != [] && SitesAt(whole, yielded, st, rest, round)
    requires Effect(r, after) == round(st, rest[0])
    ensures r.Failure? ==> whole == Streamed(yielded, Some(r.error), after)
    ensures r.Success? ==>
      SitesAt(whole, yielded + (if r.value.Some? then [r.value.value] else []), after, rest[1..], round)
  {
    if r.Success? && r.value.Some? {
      var t := SiteStream(after, rest[1..], round);
      assert yielded + [r.value.value] + t.yielded == yielded + ([r.value.value] + t.yielded);
    }
  }

  // ---------------------------------------------------------------------------
  // Folder listings

  /** Where a children page keeps its items and its link, read with plain
      `dict` access on the decoded body. */
  const ChildLinks := PageConfig("value", "@odata.nextLink", Field)

  /** One round of the listing loop: the page at `url`, read for its `value`
      and its link. */
  function ChildRound(st: AuthState, cx: Context, url: string): (x: Effect<ChildPage>)
    ensures st.sent <= x.after.sent
    ensures x.result.Success? ==>
      && |x.after.sent| > |st.sent| && Last(x.after.sent).url == url
      && x.result == ReadChildPage(cx.env.upstream(Last(x.after.sent)))
  {
    var x := Get(st, cx, url);
    if x.result.Failure? then Effect(Failure(x.result.error), x.after)
    else Effect(ReadChildPage(x.result.value), x.after)
  }

  /** The listing loop of `_get_drive_path_children` from `url` on: the
      `value` of every page is yielded, whatever the status; the loop follows
      `@odata.nextLink` while the key is present. */
  function ChildPagesSpec(st: AuthState, cx: Context, url: string, rank: string -> nat): (s: Streamed)
    requires CursorsDescend(cx.env.upstream, ChildLinks, rank)
    ensures st.sent <= s.after.sent
    decreases rank(url)
  {
    var x := ChildRound(st, cx, url);
    if x.result.Failure? then Streamed([], Some(x.result.error), x.after)
    else
      var page := x.result.value;
      if page.nextLink.None? then Streamed([page.value], None, x.after)
      else if !page.nextLink.value.JStr? then Streamed([page.value], Some(InvalidUrl), x.after)
      else
        ChildLinkDescends(st, cx, url, rank);
        var rest := ChildPagesSpec(x.after, cx, page.nextLink.value.s, rank);
        Streamed([page.value] + rest.yielded, rest.end, rest.after)
  }

  /** Every link the listing follows ranks below the page it was read from. */
  lemma ChildLinkDescends(st: AuthState, cx: Context, url: string, rank: string -> nat)
    requires CursorsDescend(cx.env.upstream, ChildLinks, rank)
    requires var x := ChildRound(st, cx, url);
      x.result.Success? && x.result.value.nextLink.Some? && x.result.value.nextLink.value.JStr?
    ensures rank(ChildRound(st, cx, url).result.value.nextLink.value.s) < rank(url)
  {
    var x := ChildRound(st, cx, url);
    var req := Last(x.after.sent);
    assert LinkDescends(Reply(cx.env.upstream, req), req.url, ChildLinks, rank);
  }

  /** The listing has produced `yielded` and goes on from `url` in state
      `st`. */
  ghost predicate ListingAt(whole: Streamed, yielded: seq<Json>, st: AuthState, cx: Context, url: string, rank: string -> nat)
    requires CursorsDescend(cx.env.upstream, ChildLinks, rank)
  {
    var s := ChildPagesSpec(st, cx, url, rank);
    whole == Streamed(yielded + s.yielded, s.end, s.after)
  }

  /** One round of the listing, seen from its loop: it ends the listing, or
      moves it to a link of lower rank. */
  lemma ListingStep(whole: Streamed, yielded: seq<Json>, st: AuthState, cx: Context, url: string, rank: string -> nat,
                    r: Result<ChildPage, Error>, after: AuthState)
    requires CursorsDescend(cx.env.upstream, ChildLinks, rank)
    requires ListingAt(whole, yielded, st, cx, url, rank)
    requires Effect(r, after) == ChildRound(st, cx, url)
    ensures r.Failure? ==> whole == Streamed(yielded, Some(r.error), after)
    ensures r.Success? && r.value.nextLink.None? ==> whole == Streamed(yielded + [r.value.value], None, after)
    ensures r.Success? && r.value.nextLink.Some? && !r.value.nextLink.value.JStr? ==>
      whole == Streamed(yielded + [r.value.value], Some(InvalidUrl), after)
    ensures r.Success? && r.value.nextLink.Some? && r.value.nextLink.value.JStr? ==>
      && rank(r.value.nextLink.value.s) < rank(url)
      && ListingAt(whole, yielded + [r.value.value], after, cx, r.value.nextLink.value.s, rank)
  {
    if r.Success? && r.value.nextLink.Some? && r.value.nextLink.value.JStr? {
      ChildLinkDescends(st, cx, url, rank);
      var s := ChildPagesSpec(after, cx, r.value.nextLink.value.s, rank);
      assert yielded + [r.value.value] + s.yielded == yielded + ([r.value.value] + s.yielded);
    }
  }

  /** One page of a folder listing: the URL asked for and what was read. */
  datatype Listed = Listed(url: string, page: Result<ChildPage, Error>)

  /** Page `p` was read and its `@odata.nextLink` is `q`'s URL. */
  predicate ListingLinks(p: Listed, q: Listed)
  {
    p.page.Success? && p.page.value.nextLink == Some(JStr(q.url))
  }

  /** A listing from `start`: every page but the last was read and names the
      next page's URL as its `@odata.nextLink`; the last page raised, has no
      link, or has a link that is no string. */
  predicate ListingChained(start: string, pages: seq<Listed>)
  {
    && |pages| >= 1
    && pages[0].url == start
    && (forall i :: 0 <= i < |pages| - 1 ==> ListingLinks(pages[i], pages[i + 1]))
    && !(Last(pages).page.Success? && Last(pages).page.value.nextLink.Some? && Last(pages).page.value.nextLink.value.JStr?)
  }

  /** The `value` of every page read, in page order. */
  function ListingValues(pages: seq<Listed>): seq<Json>
  {
    if pages == [] then []
    else (if pages[0].page.Success? then [pages[0].page.value.value] else []) + ListingValues(pages[1..])
  }

  /** How a listing whose last page is `last` ends: with the exception of
      that page, normally when it has no link, or because its link is no
      URL. */
  function ListingEnd(last: Listed): Option<Error>
  {
    if last.page.Failure? then Some(last.page.error)
    else if last.page.value.nextLink.None? then None
    else Some(InvalidUrl)
  }

  /** A page read is what `ReadChildPage` makes of the upstream's answer to
      a request for the page's URL among `sent[from..]`. */
  ghost predicate ReadAmong(p: Listed, sent: seq<HttpRequest>, from: nat, upstream: HttpRequest -> HttpResponse)
  {
    p.page.Success? ==>
      exists j :: from <= j < |sent| && sent[j].url == p.url && p.page == ReadChildPage(upstream(sent[j]))
  }

  /** The listing is a chain of pages from its first URL: each page's
      `@odata.nextLink` is the next page's URL, and the last page has none
      (or one that is no string, or it raised). What the listing yields is
      the `value` of every page in order, and every page was read from the
      upstream's answer to a request the listing sent for its URL. */
  lemma {:induction false} ChildPagesChain(st: AuthState, cx: Context, url: string, rank: string -> nat)
    requires CursorsDescend(cx.env.upstream, ChildLinks, rank)
    ensures var s := ChildPagesSpec(st, cx, url, rank);
      exists pages :: ChainOf(pages, url, s, |st.sent|, cx.env.upstream)
    decreases rank(url)
  {
    var s := ChildPagesSpec(st, cx, url, rank);
    var x := ChildRound(st, cx, url);
    assert ListingAt(s, [], st, cx, url, rank);
    ListingStep(s, [], st, cx, url, rank, x.result, x.after);
    if x.result.Failure? || x.result.value.nextLink.None? || !x.result.value.nextLink.value.JStr? {
      ListingLast(url, x, s, |st.sent|, cx.env.upstream);
    } else {
      var next := x.result.value.nextLink.value.s;
      ChildPagesChain(x.after, cx, next, rank);
      var rest := ChildPagesSpec(x.after, cx, next, rank);
      var tail :| ChainOf(tail, next, rest, |x.after.sent|, cx.env.upstream);
      ListingFirst(url, x, tail, rest, s, |st.sent|, cx.env.upstream);
    }
  }

  /** `pages` is a chain of listing pages from `url` that accounts for what
      `s` yielded and how it ended, each page read among the requests sent
      from index `from` on. */
  ghost predicate ChainOf(pages: seq<Listed>, url: string, s: Streamed, from: nat, upstream: HttpRequest -> HttpResponse)
  {
    && ListingChained(url, pages)
    && s.yielded == ListingValues(pages) && s.end == ListingEnd(Last(pages))
    && forall i :: 0 <= i < |pages| ==> ReadAmong(pages[i], s.after.sent, from, upstream)
  }

  /** A round of the listing that ends it. */
  lemma ListingLast(url: string, x: Effect<ChildPage>, s: Streamed, from: nat, upstream: HttpRequest -> HttpResponse)
    requires x.result.Success? ==>
      |x.after.sent| > from && Last(x.after.sent).url == url && x.result == ReadChildPage(upstream(Last(x.after.sent)))
    requires x.result.Failure? ==> s == Streamed([], Some(x.result.error), x.after)
    requires x.result.Success? && x.result.value.nextLink.None? ==> s == Streamed([x.result.value.value], None, x.after)
    requires x.result.Success? && x.result.value.nextLink.Some? && !x.result.value.nextLink.value.JStr? ==>
      s == Streamed([x.result.value.value], Some(InvalidUrl), x.after)
    requires x.result.Failure? || x.result.value.nextLink.None? || !x.result.value.nextLink.value.JStr?
    ensures ChainOf([Listed(url, x.result)], url, s, from, upstream)
  {
    var first := Listed(url, x.result);
    var pages := [first];
    assert pages[1..] == [];
    if x.result.Success? {
      var j := |x.after.sent| - 1;
      assert s.after.sent[j].url == url && first.page == ReadChildPage(upstream(s.after.sent[j]));
    }
  }

  /** A round of the listing that follows its link to the rest. */
  lemma ListingFirst(url: string, x: Effect<ChildPage>, tail: seq<Listed>, rest: Streamed, s: Streamed, from: nat,
                     upstream: HttpRequest -> HttpResponse)
    requires x.result.Success? && x.result.value.nextLink.Some? && x.result.value.nextLink.value.JStr?
    requires |x.after.sent| > from && Last(x.after.sent).url == url && x.result == ReadChildPage(upstream(Last(x.after.sent)))
    requires x.after.sent <= rest.after.sent
    requires ChainOf(tail, x.result.value.nextLink.value.s, rest, |x.after.sent|, upstream)
    requires s == Streamed([x.result.value.value] + rest.yielded, rest.end, rest.after)
    ensures ChainOf([Listed(url, x.result)] + tail, url, s, from, upstream)
  {
    var first := Listed(url, x.result);
    var j := |x.after.sent| - 1;
    assert rest.after.sent[j] == x.after.sent[j];
    assert ReadAmong(first, s.after.sent, from, upstream);
    ListingCons(first, tail, s.after.sent, from, |x.after.sent|, upstream);
  }

  /** A read page linking to the head of a listing, put in front of it. */
  lemma ListingCons(first: Listed, tail: seq<Listed>, sent: seq<HttpRequest>, from: nat, mid: nat,
                    upstream: HttpRequest -> HttpResponse)
    requires |tail| >= 1 && ListingChained(tail[0].url, tail) && ListingLinks(first, tail[0]) && from <= mid
    requires forall i :: 0 <= i < |tail| ==> ReadAmong(tail[i], sent, mid, upstream)
    requires ReadAmong(first, sent, from, upstream)
    ensures var pages := [first] + tail;
      && ListingChained(first.url, pages)
      && ListingValues(pages) == [first.page.value.value] + ListingValues(tail)
      && Last(pages) == Last(tail)
      && forall i :: 0 <= i < |pages| ==> ReadAmong(pages[i], sent, from, upstream)
  {
    var pages := [first] + tail;
    assert pages[1..] == tail;
    forall i | 0 <= i < |pages| - 1 ensures ListingLinks(pages[i], pages[i + 1]) {
      if i > 0 {
        assert pages[i] == tail[i - 1] && pages[i + 1] == tail[i];
      }
    }
    forall i | 0 <= i < |pages| ensures ReadAmong(pages[i], sent, from, upstream) {
      if i > 0 {
        assert pages[i] == tail[i - 1];
        assert ReadAmong(tail[i - 1], sent, mid, upstream);
      }
    }
  }

  /** `_get_drive_path_children(path, site, document_lib)`: nothing without a
      drive root, otherwise the pages of the folder's listing. */
  function DrivePathChildrenSpec(st: AuthState, cx: Context, path: string, site: string, lib: Option<string>, rank: string -> nat): Streamed
    requires CursorsDescend(cx.env.upstream, ChildLinks, rank)
  {
    var d := DriveUrlSpec(st, cx, site, lib);
    if d.result.Failure? then Streamed([], Some(d.result.error), d.after)
    else if d.result.value.None? then Streamed([], None, d.after)
    else ChildPagesSpec(d.after, cx, ChildrenUrl(d.result.value.value, path, cx.quote), rank)
  }

  // ---------------------------------------------------------------------------
  // The client

  class Graph {
    const cx: Context
    /** Whether the session has been opened. */
    var session: bool
    /** The bearer header of the current token, `None` before the first one. */
    var authHeader: Option<Headers>
    /** How many token requests have been made: the token endpoint answers
        each one afresh. */
    var tokenRequests: nat
    /** The requests sent upstream so far. */
    ghost var sent: seq<HttpRequest>

    ghost function State(): AuthState
      reads this
    {
      AuthState(session, authHeader, tokenRequests, sent)
    }

    /** `Graph(config)`: no session and no token yet. The source's client is
        the one built with `Stale`. */
    constructor (baseUrl: Option<string>, env: Env, paging: PageConfig, urlParse: string -> UrlSplit,
                 quote: string -> string, resend: Resend)
      ensures cx == Context(GraphUrl(baseUrl), env, paging, urlParse, quote, resend)
      ensures State() == AuthState(false, None, 0, [])
    {
      cx := Context(GraphUrl(baseUrl), env, paging, urlParse, quote, resend);
      session := false;
      authHeader := None;
      tokenRequests := 0;
      sent := [];
    }

    /** `get_token()`. */
    method GetToken() returns (r: Result<(), Error>)
      modifies this
      ensures Effect(r, State()) == Auth.GetToken(old(State()), cx.env)
    {
      var reply := cx.env.tokenService(cx.env.credentials, tokenRequests);
      tokenRequests := tokenRequests + 1;
      var token := AccessToken(reply);
      if token.Failure? {
        return Failure(token.error);
      }
      authHeader := Some(BearerHeader(token.value));
      return Success(());
    }

    /** `request(method, url, **kwargs)` with the client's resend policy. */
    method Request(verb: string, url: string, opts: Options) returns (r: Result<HttpResponse, Error>)
      modifies this
      ensures Effect(r, State()) == Exchange(old(State()), cx.env, Call(verb, url, opts), cx.resend)
    {
      if cx.resend == Stale {
        r := RequestAsWritten(verb, url, opts);
      } else {
        r := RequestRefreshed(verb, url, opts);
      }
    }

    /** `request(method, url, **kwargs)` corrected: after a 401 the request
        is prepared anew with the refreshed header. */
    method RequestRefreshed(verb: string, url: string, opts: Options) returns (r: Result<HttpResponse, Error>)
      modifies this
      ensures Effect(r, State()) == Exchange(old(State()), cx.env, Call(verb, url, opts), Fresh)
    {
      if !session {
        session := true;
        var ok := GetToken();
        if ok.Failure? {
          return Failure(ok.error);
        }
      }
      var call := Call(verb, url, opts);
      var headers := MergeHeaders(opts.headers, authHeader, opts.json.Some?);
      if headers.Failure? {
        return Failure(headers.error);
      }
      var req := Prepare(call, headers.value);
      var resp := cx.env.upstream(req);
      sent := sent + [req];
      if resp.status == 401 {
        var ok := GetToken();
        if ok.Failure? {
          return Failure(ok.error);
        }
        req := Prepare(call, MergeHeaders(opts.headers, authHeader, opts.json.Some?).value);
        resp := cx.env.upstream(req);
        sent := sent + [req];
      }
      return Success(resp);
    }

    /** `request(method, url, **kwargs)` as written: after a 401 the request
        prepared before the refresh is sent again. */
    method RequestAsWritten(verb: string, url: string, opts: Options) returns (r: Result<HttpResponse, Error>)
      modifies this
      ensures Effect(r, State()) == Exchange(old(State()), cx.env, Call(verb, url, opts), Stale)
    {
      if !session {
        session := true;
        var ok := GetToken();
        if ok.Failure? {
          return Failure(ok.error);
        }
      }
      var headers := MergeHeaders(opts.headers, authHeader, opts.json.Some?);
      if headers.Failure? {
        return Failure(headers.error);
      }
      var req := Prepare(Call(verb, url, opts), headers.value);
      var resp := cx.env.upstream(req);
      sent := sent + [req];
      if resp.status == 401 {
        var ok := GetToken();
        if ok.Failure? {
          return Failure(ok.error);
        }
        resp := cx.env.upstream(req);
        sent := sent + [req];
      }
      return Success(resp);
    }

    /** One round of the paging loop of `__get_all_paged_entities`: fetches
        the page at `url` and reads its entities and its link. */
    method FetchPage(url: string, args: Args) returns (step: Step)
      modifies this
      ensures var x := Exchange(old(State()), cx.env, PageCall(url, args), cx.resend);
        step == PageStep(x.result, false, cx.paging) && State() == x.after
    {
      var resp := Request("GET", url, Options(None, PageParams(url, args), None, None));
      if resp.Failure? {
        return Halted(resp.error);
      }
      var r := resp.value;
      if !IsOk(r.status) {
        return Halted(UnexpectedStatus(r.status, r.text));
      }
      if r.json.None? {
        return Halted(JsonDecodeError);
      }
      var found := cx.paging.lookup(r.json.value, cx.paging.entitiesPath);
      if !(found.Some? && found.value.JArr?) {
        return Halted(TypeError("entities value is not iterable"));
      }
      return Page(found.value.items, CursorOf(r.json.value, cx.paging));
    }

    /** A round of the paging loop, seen from the loop: the page at `url`
        either ends the walk with an exception or moves the loop on to its
        link. */
    method ReadNextPage(ghost w0: Walk, ghost done: seq<Fetched>, url: string, args: Args,
                        ghost entities: seq<Json>, ghost count: nat, ghost rank: string -> nat)
      returns (step: Step)
      requires CursorsDescend(cx.env.upstream, cx.paging, rank)
      requires PagingAt(w0, done, Next(url), entities, count, State(), cx, args, rank)
      modifies this
      ensures step.Halted? ==>
        entities == Yielded(w0.pages) && Failure(step.error) == Outcome(w0.pages) && State() == w0.after
      ensures step.Page? ==>
        PagingAt(w0, done + [Fetched(url, step)], step.cursor, entities + step.entities,
                 if step.cursor.End? then count else count + 1, State(), cx, args, rank)
    {
      ghost var st := State();
      step := FetchPage(url, args);
      if step.Halted? {
        PagingHalt(w0, done, url, entities, count, st, cx, args, rank, step, State());
      } else {
        PagingPage(w0, done, url, entities, count, st, cx, args, rank, step, State());
      }
    }

    /** `__get_all_paged_entities(path, args)`: the entities of every page
        from `graph_url + path` on, and the page count, or the exception that
        ended the walk. */
    method GetAllPagedEntities(path: string, args: Args, ghost rank: string -> nat)
      returns (entities: seq<Json>, outcome: Result<nat, Error>)
      requires CursorsDescend(cx.env.upstream, cx.paging, rank)
      modifies this
      ensures var w := PagedWalk(old(State()), cx, cx.graphUrl + path, args, rank);
        entities == Yielded(w.pages) && outcome == Outcome(w.pages) && State() == w.after
    {
      var url := cx.graphUrl + path;
      ghost var w0 := PagedWalk(State(), cx, url, args, rank);
      PagingStart(State(), cx, url, args, rank);
      entities, outcome := ReadPages(w0, url, args, rank);
    }

    /** The paging loop of `__get_all_paged_entities`, from its first URL to
        the walk's end: a link is followed while there is one, and the page
        count goes up with every link. */
    method ReadPages(ghost w0: Walk, url: string, args: Args, ghost rank: string -> nat)
      returns (entities: seq<Json>, outcome: Result<nat, Error>)
      requires CursorsDescend(cx.env.upstream, cx.paging, rank)
      requires PagingAt(w0, [], Next(url), [], 1, State(), cx, args, rank)
      modifies this
      ensures entities == Yielded(w0.pages) && outcome == Outcome(w0.pages) && State() == w0.after
    {
      ghost var done: seq<Fetched> := [];
      var nextPage: Cursor := Next(url);
      var pageCounter := 1;
      entities := [];
      while nextPage.Next?
        invariant PagingAt(w0, done, nextPage, entities, pageCounter, State(), cx, args, rank)
        decreases |w0.pages| - |done|
      {
        var step := ReadNextPage(w0, done, nextPage.url, args, entities, pageCounter, rank);
        if step.Halted? {
          outcome := Failure(step.error);
          return;
        }
        entities := entities + step.entities;
        pageCounter := if step.cursor.End? then pageCounter else pageCounter + 1;
        done := done + [Fetched(nextPage.url, step)];
        nextPage := step.cursor;
      }
      PagingExit(w0, done, nextPage, entities, pageCounter, State(), cx, args, rank);
      // a link that is not a string makes the next round's `in` test or request raise
      outcome := if nextPage.BadCursor? then Failure(CursorFailure(nextPage.value)) else Success(pageCounter);
    }

    /** `_get_sharepoint_site_id(site)`. */
    method SharepointSiteId(site: string) returns (r: Result<Json, Error>)
      modifies this
      ensures Effect(r, State()) == SiteIdSpec(old(State()), cx, site)
    {
      var resp := Request("GET", SiteIdUrl(cx.graphUrl, cx.urlParse(site)), NoOptions);
      if resp.Failure? {
        return Failure(resp.error);
      }
      r := OkField(resp.value, "id");
    }

    /** `_get_site_documents_drive_url(site, document_lib)`. */
    method SiteDocumentsDriveUrl(site: string, lib: Option<string>) returns (r: Result<Option<string>, Error>)
      modifies this
      ensures Effect(r, State()) == DriveUrlSpec(old(State()), cx, site, lib)
    {
      var siteId := SharepointSiteId(site);
      if siteId.Failure? {
        return Failure(siteId.error);
      }
      if !Truthy(siteId.value) {
        return Success(None);
      }
      if !siteId.value.JStr? {
        return Failure(TypeError("can only concatenate str to str"));
      }
      var url := DrivesUrl(cx.graphUrl, siteId.value.s, lib);
      var resp := Request("GET", url, NoOptions);
      if resp.Failure? {
        return Failure(resp.error);
      }
      r := ReadDriveRoot(url, resp.value, lib);
    }

    /** `_get_file_url(path, site, document_lib)`. */
    method FileUrlOf(path: string, site: string, lib: Option<string>) returns (r: Result<string, Error>)
      modifies this
      ensures Effect(r, State()) == FileUrlSpec(old(State()), cx, path, site, lib)
    {
      var driveUrl := SiteDocumentsDriveUrl(site, lib);
      if driveUrl.Failure? {
        return Failure(driveUrl.error);
      }
      if driveUrl.value.None? {
        return Failure(TypeError("unsupported operand type(s) for +: 'NoneType' and 'str'"));
      }
      r := Success(FileUrl(driveUrl.value.value, path, cx.quote));
    }

    /** `_get_file_upload_url(path, site, document_lib, session)`. */
    method FileUploadUrl(path: string, site: string, lib: Option<string>, session: bool) returns (r: Result<string, Error>)
      modifies this
      ensures Effect(r, State()) == UploadUrlSpec(old(State()), cx, path, site, lib, session)
    {
      var fileUrl := FileUrlOf(path, site, lib);
      if fileUrl.Failure? {
        return fileUrl;
      }
      r := Success(UploadUrl(fileUrl.value, session));
    }

    /** `_get_file_download_url(path, site, document_lib)`. */
    method FileDownloadUrl(path: string, site: string, lib: Option<string>) returns (r: Result<Json, Error>)
      modifies this
      ensures Effect(r, State()) == DownloadUrlSpec(old(State()), cx, path, site, lib)
    {
      var driveUrl := SiteDocumentsDriveUrl(site, lib);
      if driveUrl.Failure? {
        return Failure(driveUrl.error);
      }
      if driveUrl.value.None? {
        return Success(JNull);
      }
      var resp := Request("GET", DetailsUrl(driveUrl.value.value, path), NoOptions);
      if resp.Failure? {
        return Failure(resp.error);
      }
      r := OkField(resp.value, "@microsoft.graph.downloadUrl");
    }

    /** `get_file(path, site, document_lib)`: the download itself goes out
        without the session and its token. */
    method GetFile(path: string, site: string, lib: Option<string>) returns (r: Result<Option<Bytes>, Error>)
      modifies this
      ensures Effect(r, State()) == GetFileSpec(old(State()), cx, path, site, lib)
    {
      var downloadUrl := FileDownloadUrl(path, site, lib);
      if downloadUrl.Failure? {
        return Failure(downloadUrl.error);
      }
      if !downloadUrl.value.JStr? {
        return Failure(InvalidUrl);
      }
      var req := Download(downloadUrl.value.s);
      var resp := cx.env.upstream(req);
      sent := sent + [req];
      if !IsOk(resp.status) {
        return Success(None);
      }
      r := Success(Some(resp.content));
    }

    /** `add_file(content, path, site, document_lib)`: every exception is
        caught and gives `None`. */
    method AddFile(content: Bytes, path: string, site: string, lib: Option<string>) returns (r: Option<HttpResponse>)
      modifies this
      ensures Effect(Success(r), State()) == AddFileSpec(old(State()), cx, content, path, site, lib)
    {
      var size := |content|;
      if !UsesUploadSession(size) {
        var uploadUrl := FileUploadUrl(path, site, lib, false);
        if uploadUrl.Failure? {
          return None;
        }
        var resp := Request("PUT", uploadUrl.value, Options(None, None, None, Some(content)));
        return if resp.Success? then Some(resp.value) else None;
      }
      var sessionUrl := FileUploadUrl(path, site, lib, true);
      if sessionUrl.Failure? {
        return None;
      }
      r := UploadThroughSession(content, sessionUrl.value);
    }

    /** The upload session branch of `add_file`, from the session URL on. */
    method UploadThroughSession(content: Bytes, sessionUrl: string) returns (r: Option<HttpResponse>)
      modifies this
      requires UsesUploadSession(|content|)
      ensures Effect(Success(r), State()) == SessionUploadSpec(old(State()), cx, content, sessionUrl)
    {
      var sessionResp := Request("POST", sessionUrl, NoOptions);
      if sessionResp.Failure? {
        return None;
      }
      if !IsOk(sessionResp.value.status) {
        return Some(sessionResp.value);
      }
      var uploadUrl := SessionUploadUrl(sessionResp.value);
      if uploadUrl.Failure? {
        return None;
      }
      if uploadUrl.value.None? {
        return Some(sessionResp.value);
      }
      var resp := Request("PUT", uploadUrl.value.value, Options(Some(UploadHeaders(|content|)), None, None, Some(content)));
      return if resp.Success? then Some(resp.value) else None;
    }

    /** `update_file_metadata(payload, file_path, site, document_lib)`. */
    method UpdateFileMetadata(payload: Json, filePath: string, site: string, lib: Option<string>)
      returns (r: Result<HttpResponse, Error>)
      modifies this
      ensures Effect(r, State()) == UpdateFileMetadataSpec(old(State()), cx, payload, filePath, site, lib)
    {
      var fileUrl := FileUrlOf(filePath, site, lib);
      if fileUrl.Failure? {
        return Failure(fileUrl.error);
      }
      r := Request("PATCH", fileUrl.value + ":/listItem/fields", Options(None, None, Some(payload), None));
    }

    /** One round of `__get_all_siteurls`; the group id is read a second
        time for the mark, as the source does. */
    method SiteForGroup(entity: seq<(string, Json)>) returns (r: Result<Option<Json>, Error>)
      modifies this
      ensures Effect(r, State()) == SiteRound(old(State()), cx, entity)
    {
      var gid := SetGroupId(entity);
      if gid.Failure? {
        return Failure(gid.error);
      }
      if !gid.value.JStr? {
        return Failure(TypeError("can only concatenate str to str"));
      }
      var resp := Request("GET", cx.graphUrl + "groups/" + gid.value.s + "/sites/root", NoOptions);
      if resp.Failure? {
        return Failure(resp.error);
      }
      if !IsOk(resp.value.status) {
        return Success(None);
      }
      var body := resp.value.json;
      if body.None? {
        return Failure(JsonDecodeError);
      }
      if !body.value.JObj? {
        return Failure(TypeError("site answer is not an object"));
      }
      var groupId := SetGroupId(entity);
      r := Success(Some(JObj(body.value.fields["_id" := groupId.value])));
    }

    /** `__get_all_siteurls(posted_entities)`, run to its end: the marked
        root sites it yields, and the exception that ended it, if any. */
    method GetAllSiteUrls(entities: seq<seq<(string, Json)>>) returns (yielded: seq<Json>, end: Option<Error>)
      modifies this
      ensures Streamed(yielded, end, State()) == SiteUrlsSpec(old(State()), cx, entities)
    {
      ghost var whole := SiteUrlsSpec(State(), cx, entities);
      ghost var round := SiteRounds(cx);
      yielded := [];
      for i := 0 to |entities|
        invariant SitesAt(whole, yielded, State(), entities[i..], round)
      {
        assert entities[i..][0] == entities[i] && entities[i..][1..] == entities[i + 1..];
        ghost var st := State();
        var site := SiteForGroup(entities[i]);
        SitesStep(whole, yielded, st, entities[i..], round, site, State());
        if site.Failure? {
          return yielded, Some(site.error);
        }
        if site.value.Some? {
          yielded := yielded + [site.value.value];
        }
      }
      assert entities[|entities|..] == [];
      end := None;
    }

    /** `_get_drive_path_children(path, site, document_lib)`, run to its
        end. */
    method DrivePathChildren(path: string, site: string, lib: Option<string>, ghost rank: string -> nat)
      returns (yielded: seq<Json>, end: Option<Error>)
      requires CursorsDescend(cx.env.upstream, ChildLinks, rank)
      modifies this
      ensures Streamed(yielded, end, State()) == DrivePathChildrenSpec(old(State()), cx, path, site, lib, rank)
    {
      var driveUrl := SiteDocumentsDriveUrl(site, lib);
      if driveUrl.Failure? {
        return [], Some(driveUrl.error);
      }
      if driveUrl.value.None? {
        return [], None;
      }
      yielded, end := ReadChildPages(ChildrenUrl(driveUrl.value.value, path, cx.quote), rank);
    }

    /** One round of the listing loop of `_get_drive_path_children`. */
    method FetchChildPage(url: string) returns (r: Result<ChildPage, Error>)
      modifies this
      ensures Effect(r, State()) == ChildRound(old(State()), cx, url)
    {
      var resp := Request("GET", url, NoOptions);
      if resp.Failure? {
        return Failure(resp.error);
      }
      r := ReadChildPage(resp.value);
    }

    /** The listing loop of `_get_drive_path_children`: every page's `value`
        is yielded, and `@odata.nextLink` is followed while present. */
    method ReadChildPages(url: string, ghost rank: string -> nat) returns (yielded: seq<Json>, end: Option<Error>)
      requires CursorsDescend(cx.env.upstream, ChildLinks, rank)
      modifies this
      ensures Streamed(yielded, end, State()) == ChildPagesSpec(old(State()), cx, url, rank)
    {
      ghost var whole := ChildPagesSpec(State(), cx, url, rank);
      var next := url;
      yielded := [];
      while true
        invariant ListingAt(whole, yielded, State(), cx, next, rank)
        decreases rank(next)
      {
        ghost var st := State();
        var page := FetchChildPage(next);
        ListingStep(whole, yielded, st, cx, next, rank, page, State());
        if page.Failure? {
          return yielded, Some(page.error);
        }
        yielded := yielded + [page.value.value];
        if page.value.nextLink.None? {
          return yielded, None;
        }
        if !page.value.nextLink.value.JStr? {
          return yielded, Some(InvalidUrl);
        }
        next := page.value.nextLink.value.s;
      }
    }
  }
}
