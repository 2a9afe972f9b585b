/** The older `DataAccess` paging loop of the Flask service module: one token
    fetched before the walk and reused for every page, plain GET requests
    without a session, and only status 200 accepted. */
module O365Graph {
  import opened Wrappers
  import opened Strings
  import opened JsonValues
  import opened Http
  import opened Paging
  import Utils

  /** What the walk reads from its environment: `base_url` (absent when the
      variable is not set), the outcome of the module's `get_token()`, the
      upstream, and the dotted paths `entities_path` and `next_page`. */
  datatype LegacyConfig = LegacyConfig(
    baseUrl: Option<string>,
    token: Result<string, Error>,
    upstream: HttpRequest -> HttpResponse,
    paging: PageConfig)

  /** The GET of one page: the bearer header of the one token, and the
      caller's arguments unless the URL carries a `$skiptoken`. */
  function LegacyRequest(url: string, args: Args, token: string): HttpRequest
  {
    HttpRequest("GET", url, BearerHeader(token), PageParams(url, args), None, None)
  }

  /** The walk from `url` on: each page is read with the strict status test
      (exactly 200), and the walk goes on while pages carry a link. */
  function LegacyWalk(cfg: LegacyConfig, url: string, args: Args, token: string, rank: string -> nat): (pages: seq<Fetched>)
    requires CursorsDescend(cfg.upstream, cfg.paging, rank)
    ensures Chained(url, pages)
    decreases rank(url)
  {
    var req := LegacyRequest(url, args, token);
    var step := ReadPage(cfg.upstream(req), true, cfg.paging);
    if step.Page? && step.cursor.Next? then
      assert LinkDescends(Reply(cfg.upstream, req), req.url, cfg.paging, rank);
      var rest := LegacyWalk(cfg, step.cursor.url, args, token, rank);
      ChainedCons(url, step, rest);
      [Fetched(url, step)] + rest
    else
      [Fetched(url, step)]
  }

  /** Every page of a walk is what the upstream answered to the GET of that
      page's URL with the one token, read with the strict status test. */
  ghost predicate LegacyPagesRead(pages: seq<Fetched>, cfg: LegacyConfig, args: Args, token: string)
  {
    forall i :: 0 <= i < |pages| ==>
      pages[i].step == ReadPage(cfg.upstream(LegacyRequest(pages[i].url, args, token)), true, cfg.paging)
  }

  /** The walk reads each of its pages from the upstream's answer to that
      page's request. */
  lemma {:induction false} LegacyWalkReads(cfg: LegacyConfig, url: string, args: Args, token: string, rank: string -> nat)
    requires CursorsDescend(cfg.upstream, cfg.paging, rank)
    ensures LegacyPagesRead(LegacyWalk(cfg, url, args, token, rank), cfg, args, token)
    decreases rank(url)
  {
    var req := LegacyRequest(url, args, token);
    var step := ReadPage(cfg.upstream(req), true, cfg.paging);
    if step.Page? && step.cursor.Next? {
      assert LinkDescends(Reply(cfg.upstream, req), req.url, cfg.paging, rank);
      var rest := LegacyWalk(cfg, step.cursor.url, args, token, rank);
      LegacyWalkReads(cfg, step.cursor.url, args, token, rank);
      var pages := [Fetched(url, step)] + rest;
      assert LegacyWalk(cfg, url, args, token, rank) == pages;
      forall i | 1 <= i < |pages|
        ensures pages[i].step == ReadPage(cfg.upstream(LegacyRequest(pages[i].url, args, token)), true, cfg.paging)
      {
        assert pages[i] == rest[i - 1];
      }
    }
  }

  /** The requests a walk sends, one per page, in page order. */
  function LegacyRequests(pages: seq<Fetched>, args: Args, token: string): seq<HttpRequest>
  {
    if pages == [] then []
    else LegacyRequests(pages[..|pages| - 1], args, token) + [LegacyRequest(Last(pages).url, args, token)]
  }

  /** Every request of the walk fetches its page's URL with the same bearer
      token and carries the caller's arguments exactly when the URL lacks
      `$skiptoken`; nothing refreshes the token. */
  lemma {:induction false} LegacyRequestsShareToken(pages: seq<Fetched>, args: Args, token: string)
    ensures var sent := LegacyRequests(pages, args, token);
      && |sent| == |pages|
      && forall i :: 0 <= i < |sent| ==>
           && sent[i].verb == "GET" && sent[i].url == pages[i].url
           && sent[i].headers == map["Authorization" := "Bearer " + token]
           && (sent[i].params.Some? <==> !exists k :: OccursAt(pages[i].url, "$skiptoken", k))
           && (sent[i].params.Some? ==> sent[i].params.value == args)
           && sent[i].json.None? && sent[i].data.None?
    decreases |pages|
  {
    if pages != [] {
      var init := pages[..|pages| - 1];
      LegacyRequestsShareToken(init, args, token);
      var sent := LegacyRequests(pages, args, token);
      forall i | 0 <= i < |init| ensures pages[i] == init[i] && sent[i] == LegacyRequests(init, args, token)[i] {
      }
      assert sent[|init|] == LegacyRequest(pages[|init|].url, args, token);
    }
  }

  /** Where the loop stands: `entities`, `count` and `sent` are what the pages
      read so far yielded, counted and cost, and the whole walk is those pages
      followed by the walk from `cursor`, or those pages alone when `cursor`
      is no link. */
  ghost predicate LegacyAt(w0: seq<Fetched>, done: seq<Fetched>, cursor: Cursor, entities: seq<Json>, count: nat,
                           sent: seq<HttpRequest>, cfg: LegacyConfig, args: Args, token: string, rank: string -> nat)
    requires CursorsDescend(cfg.upstream, cfg.paging, rank)
  {
    && entities == Yielded(done)
    && count == (if cursor.End? then |done| else |done| + 1)
    && sent == LegacyRequests(done, args, token)
    && (cursor.Next? ==> w0 == done + LegacyWalk(cfg, cursor.url, args, token, rank))
    && (!cursor.Next? ==>
          && w0 == done && |done| >= 1
          && Last(done).step.Page? && Last(done).step.cursor == cursor)
  }

  /** The walk from `url`, seen from the loop: its first page is the one
      read there, followed by the walk from that page's link, if any. */
  lemma LegacyWalkAdvance(w0: seq<Fetched>, done: seq<Fetched>, url: string, cfg: LegacyConfig, args: Args,
                          token: string, rank: string -> nat, step: Step)
    requires CursorsDescend(cfg.upstream, cfg.paging, rank)
    requires w0 == done + LegacyWalk(cfg, url, args, token, rank)
    requires step == ReadPage(cfg.upstream(LegacyRequest(url, args, token)), true, cfg.paging)
    ensures step.Page? && step.cursor.Next? ==>
      && rank(step.cursor.url) < rank(url)
      && w0 == (done + [Fetched(url, step)]) + LegacyWalk(cfg, step.cursor.url, args, token, rank)
    ensures !(step.Page? && step.cursor.Next?) ==> w0 == done + [Fetched(url, step)]
  {
    var req := LegacyRequest(url, args, token);
    if step.Page? && step.cursor.Next? {
      assert LinkDescends(Reply(cfg.upstream, req), req.url, cfg.paging, rank);
      var rest := LegacyWalk(cfg, step.cursor.url, args, token, rank);
      assert done + ([Fetched(url, step)] + rest) == (done + [Fetched(url, step)]) + rest;
    }
  }

  /** One more page adds its request at the end. */
  lemma LegacyRequestsSnoc(done: seq<Fetched>, p: Fetched, args: Args, token: string)
    ensures LegacyRequests(done + [p], args, token) == LegacyRequests(done, args, token) + [LegacyRequest(p.url, args, token)]
  {
    assert (done + [p])[..|done|] == done;
  }

  /** A page that raises ends the walk: what was yielded and sent is the
      whole walk's, and its exception is the walk's outcome. */
  lemma LegacyHalt(w0: seq<Fetched>, done: seq<Fetched>, url: string, entities: seq<Json>, count: nat,
                   sent: seq<HttpRequest>, cfg: LegacyConfig, args: Args, token: string, rank: string -> nat,
                   step: Step)
    requires CursorsDescend(cfg.upstream, cfg.paging, rank)
    requires LegacyAt(w0, done, Next(url), entities, count, sent, cfg, args, token, rank)
    requires step == ReadPage(cfg.upstream(LegacyRequest(url, args, token)), true, cfg.paging) && step.Halted?
    ensures entities == Yielded(w0) && Failure(step.error) == Outcome(w0)
    ensures sent + [LegacyRequest(url, args, token)] == LegacyRequests(w0, args, token)
  {
    LegacyWalkAdvance(w0, done, url, cfg, args, token, rank, step);
    YieldedSnoc(done, Fetched(url, step));
    LegacyRequestsSnoc(done, Fetched(url, step), args, token);
  }

  /** A page read in full moves the loop to its cursor. */
  lemma LegacyPage(w0: seq<Fetched>, done: seq<Fetched>, url: string, entities: seq<Json>, count: nat,
                   sent: seq<HttpRequest>, cfg: LegacyConfig, args: Args, token: string, rank: string -> nat,
                   step: Step)
    requires CursorsDescend(cfg.upstream, cfg.paging, rank)
    requires LegacyAt(w0, done, Next(url), entities, count, sent, cfg, args, token, rank)
    requires step == ReadPage(cfg.upstream(LegacyRequest(url, args, token)), true, cfg.paging) && step.Page?
    ensures |done| < |w0|
    ensures LegacyAt(w0, done + [Fetched(url, step)], step.cursor, entities + step.entities,
                     if step.cursor.End? then count else count + 1,
                     sent + [LegacyRequest(url, args, token)], cfg, args, token, rank)
  {
    var page := Fetched(url, step);
    LegacyWalkAdvance(w0, done, url, cfg, args, token, rank, step);
    YieldedSnoc(done, page);
    LegacyRequestsSnoc(done, page, args, token);
    assert Last(done + [page]) == page;
  }

  /** One round of the loop: the GET of the page at `url` with the one token,
      read with the strict status test. */
  method FetchLegacyPage(cfg: LegacyConfig, url: string, args: Args, token: string) returns (step: Step)
    ensures step == ReadPage(cfg.upstream(LegacyRequest(url, args, token)), true, cfg.paging)
  {
    var resp := cfg.upstream(LegacyRequest(url, args, token));
    if resp.status != 200 {
      return Halted(UnexpectedStatus(resp.status, resp.text));
    }
    if resp.json.None? {
      return Halted(JsonDecodeError);
    }
    var found := cfg.paging.lookup(resp.json.value, cfg.paging.entitiesPath);
    if !(found.Some? && found.value.JArr?) {
      return Halted(TypeError("entities value is not iterable"));
    }
    step := Page(found.value.items, CursorOf(resp.json.value, cfg.paging));
  }

  /** `DataAccess.__get_all_paged_entities(path, args)`, run to its end: the
      entities it yields, the page count it logs or the exception that stops
      it, and the requests it sends. `base_url + path` raises before the token
      is fetched when `base_url` is not set. */
  method GetAllPagedEntities(cfg: LegacyConfig, path: string, args: Args, ghost rank: string -> nat)
    returns (entities: seq<Json>, outcome: Result<nat, Error>, sent: seq<HttpRequest>)
    requires CursorsDescend(cfg.upstream, cfg.paging, rank)
    ensures cfg.baseUrl.None? ==>
      entities == [] && sent == [] && outcome == Failure(TypeError("unsupported operand type(s) for +: 'NoneType' and 'str'"))
    ensures cfg.baseUrl.Some? && cfg.token.Failure? ==>
      entities == [] && sent == [] && outcome == Failure(cfg.token.error)
    ensures cfg.baseUrl.Some? && cfg.token.Success? ==>
      var pages := LegacyWalk(cfg, cfg.baseUrl.value + path, args, cfg.token.value, rank);
      entities == Yielded(pages) && outcome == Outcome(pages) && sent == LegacyRequests(pages, args, cfg.token.value)
  {
    if cfg.baseUrl.None? {
      return [], Failure(TypeError("unsupported operand type(s) for +: 'NoneType' and 'str'")), [];
    }
    var url := cfg.baseUrl.value + path;
    if cfg.token.Failure? {
      return [], Failure(cfg.token.error), [];
    }
    ghost var w0 := LegacyWalk(cfg, url, args, cfg.token.value, rank);
    assert LegacyAt(w0, [], Next(url), [], 1, [], cfg, args, cfg.token.value, rank);
    entities, outcome, sent := ReadLegacyPages(cfg, w0, url, args, cfg.token.value, rank);
  }

  /** The paging loop, from the first URL to the walk's end. */
  method ReadLegacyPages(cfg: LegacyConfig, ghost w0: seq<Fetched>, url: string, args: Args, accessToken: string,
                         ghost rank: string -> nat)
    returns (entities: seq<Json>, outcome: Result<nat, Error>, sent: seq<HttpRequest>)
    requires CursorsDescend(cfg.upstream, cfg.paging, rank)
    requires LegacyAt(w0, [], Next(url), [], 1, [], cfg, args, accessToken, rank)
    ensures entities == Yielded(w0) && outcome == Outcome(w0) && sent == LegacyRequests(w0, args, accessToken)
  {
    entities, sent := [], [];
    ghost var done: seq<Fetched> := [];
    var nextPage: Cursor := Next(url);
    var pageCounter := 1;
    while nextPage.Next?
      invariant LegacyAt(w0, done, nextPage, entities, pageCounter, sent, cfg, args, accessToken, rank)
      decreases |w0| - |done|
    {
      var step := FetchLegacyPage(cfg, nextPage.url, args, accessToken);
      if step.Halted? {
        LegacyHalt(w0, done, nextPage.url, entities, pageCounter, sent, cfg, args, accessToken, rank, step);
        return entities, Failure(step.error), sent + [LegacyRequest(nextPage.url, args, accessToken)];
      }
      LegacyPage(w0, done, nextPage.url, entities, pageCounter, sent, cfg, args, accessToken, rank, step);
      sent := sent + [LegacyRequest(nextPage.url, args, accessToken)];
      entities := entities + step.entities;
      if !step.cursor.End? {
        pageCounter := pageCounter + 1;
      }
      done := done + [Fetched(nextPage.url, step)];
      nextPage := step.cursor;
    }
    // a link that is not a string makes the next round's `in` test or request raise
    outcome := if nextPage.BadCursor? then Failure(CursorFailure(nextPage.value)) else Success(pageCounter);
  }

  /** The module's own `stream_json(clean)`: the same framing as the helper
      of the utilities module, "[" then the serialised rows separated by ","
      then "]", so that the chunks joined are one JSON array text. */
  method StreamJson<T>(clean: seq<T>, dumps: T -> string) returns (chunks: seq<string>)
    ensures chunks == Utils.Framed(Utils.Dumped(clean, dumps))
    ensures Utils.Concat(chunks) == "[" + Join(Utils.Dumped(clean, dumps), ',') + "]"
  {
    chunks := Utils.StreamJson(clean, dumps);
    Utils.FramedJoined(Utils.Dumped(clean, dumps));
  }
}
