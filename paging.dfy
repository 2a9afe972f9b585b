/** Cursor pagination as both paging loops perform it: fetch a URL, read the
    page's entity list and its next-page link at configured dotted paths, and
    go on with the link until a page has none. The decisions taken on one page
    and the shape of a whole walk live here; the loops themselves are in the
    modules of the classes that own them. */
module Paging {
  import opened Wrappers
  import opened Strings
  import opened JsonValues
  import opened Http

  /** The configured paths `entities_path` and `next_page`, and the lookup
      that reads a path from a decoded page body: `Dotdictify(body).get(path)`
      in the `Graph` class, `dotdictify.dotdictify(body).get(path)` in the
      Flask module, with `None` for a missing path. How either wrapper
      resolves the dots in a path and in the body's keys is left to `lookup`. */
  datatype PageConfig = PageConfig(
    entitiesPath: string,
    nextPagePath: string,
    lookup: (Json, string) -> Option<Json>)

  /** What a page says about the next one: no link (absent or `null`), a link,
      or a value that is not a string. */
  datatype Cursor = End | Next(url: string) | BadCursor(value: Json)

  /** What fetching one page came to: an exception, or the page's entities
      and its cursor. */
  datatype Step = Halted(error: Error) | Page(entities: seq<Json>, cursor: Cursor)

  /** One fetched page: the URL asked for and what came of it. */
  datatype Fetched = Fetched(url: string, step: Step)

  /** The cursor of a decoded page body. */
  function CursorOf(body: Json, cfg: PageConfig): (c: Cursor)
    ensures c.End? <==> !Present(cfg.lookup(body, cfg.nextPagePath))
    ensures c.Next? <==> cfg.lookup(body, cfg.nextPagePath).Some? && cfg.lookup(body, cfg.nextPagePath).value.JStr?
    ensures c.Next? ==> cfg.lookup(body, cfg.nextPagePath) == Some(JStr(c.url))
    ensures c.BadCursor? ==> cfg.lookup(body, cfg.nextPagePath) == Some(c.value) && !c.value.JStr? && !c.value.JNull?
  {
    var v := cfg.lookup(body, cfg.nextPagePath);
    if !Present(v) then End
    else if v.value.JStr? then Next(v.value.s)
    else BadCursor(v.value)
  }

  /** The status test of a page: any `ok` status, or exactly 200 when
      `strict`. */
  predicate Accepted(status: int, strict: bool)
  {
    if strict then status == 200 else IsOk(status)
  }

  /** Reads one page: a rejected status raises with the status and the body
      text, an undecodable body raises, an entity value that is not a list
      cannot be iterated. */
  function ReadPage(resp: HttpResponse, strict: bool, cfg: PageConfig): (s: Step)
    ensures !Accepted(resp.status, strict) <==> s == Halted(UnexpectedStatus(resp.status, resp.text))
    ensures s.Page? <==>
      && Accepted(resp.status, strict) && resp.json.Some?
      && cfg.lookup(resp.json.value, cfg.entitiesPath).Some?
      && cfg.lookup(resp.json.value, cfg.entitiesPath).value.JArr?
    ensures s.Page? ==>
      && cfg.lookup(resp.json.value, cfg.entitiesPath) == Some(JArr(s.entities))
      && s.cursor == CursorOf(resp.json.value, cfg)
  {
    if !Accepted(resp.status, strict) then Halted(UnexpectedStatus(resp.status, resp.text))
    else if resp.json.None? then Halted(JsonDecodeError)
    else
      var es := cfg.lookup(resp.json.value, cfg.entitiesPath);
      if es.Some? && es.value.JArr? then Page(es.value.items, CursorOf(resp.json.value, cfg))
      else Halted(TypeError("entities value is not iterable"))
  }

  /** One page step from the outcome of the request that fetched it. */
  function PageStep(r: Result<HttpResponse, Error>, strict: bool, cfg: PageConfig): (s: Step)
    ensures r.Failure? ==> s == Halted(r.error)
    ensures r.Success? ==> s == ReadPage(r.value, strict, cfg)
  {
    if r.Failure? then Halted(r.error) else ReadPage(r.value, strict, cfg)
  }

  /** The query arguments sent with a page: the caller's, unless the URL
      already carries a `$skiptoken`. */
  function PageParams(url: string, args: Args): (p: Option<Args>)
    ensures p.None? <==> exists i :: OccursAt(url, "$skiptoken", i)
    ensures p.Some? ==> p.value == args
  {
    ContainsAt(url, "$skiptoken");
    if Contains(url, "$skiptoken") then None else Some(args)
  }

  /** What the loop raises on its next round when a cursor is not a string:
      `in` cannot search a number or a boolean, and a list or an object is no
      URL for the HTTP client. */
  function CursorFailure(v: Json): Error
  {
    if v.JNum? || v.JBool? then TypeError("argument is not iterable") else InvalidUrl
  }

  /** A next-page link a response carries ranks strictly below the URL it
      answered. */
  ghost predicate LinkDescends(resp: HttpResponse, url: string, cfg: PageConfig, rank: string -> nat)
  {
    resp.json.Some? && CursorOf(resp.json.value, cfg).Next? ==>
      rank(CursorOf(resp.json.value, cfg).url) < rank(url)
  }

  /** The upstream's next-page links never lead back: every link ranks below
      the URL of the request it answered. Without this the source's loops can
      run forever. */
  ghost predicate CursorsDescend(upstream: HttpRequest -> HttpResponse, cfg: PageConfig, rank: string -> nat)
  {
    forall r: HttpRequest {:trigger Reply(upstream, r)} :: LinkDescends(Reply(upstream, r), r.url, cfg, rank)
  }

  /** The upstream's answer to `r`; named so that the no-cycle assumption is
      only brought in where a proof asks for it. */
  function Reply(upstream: HttpRequest -> HttpResponse, r: HttpRequest): HttpResponse
  {
    upstream(r)
  }

  /** A page that names a next page, followed by a walk from that page, is a
      walk. */
  lemma ChainedCons(url: string, step: Step, rest: seq<Fetched>)
    requires step.Page? && step.cursor.Next?
    requires Chained(step.cursor.url, rest)
    ensures Chained(url, [Fetched(url, step)] + rest)
  {
    var all := [Fetched(url, step)] + rest;
    assert Last(all) == Last(rest);
    forall i | 0 <= i < |all| - 1
      ensures LinksTo(all[i], all[i + 1])
    {
      if i > 0 {
        assert all[i] == rest[i - 1] && all[i + 1] == rest[i];
      }
    }
  }

  /** Page `p` was read and named `q`'s URL as its link. */
  predicate LinksTo(p: Fetched, q: Fetched)
  {
    p.step.Page? && p.step.cursor == Next(q.url)
  }

  /** A walk from `start`: every page but the last was read and named the
      next page's URL as its link; the last page ended the walk. */
  predicate Chained(start: string, pages: seq<Fetched>)
  {
    && |pages| >= 1
    && pages[0].url == start
    && (forall i :: 0 <= i < |pages| - 1 ==> LinksTo(pages[i], pages[i + 1]))
    && !(Last(pages).step.Page? && Last(pages).step.cursor.Next?)
  }

  /** The entities a step yields. */
  function Entities(s: Step): seq<Json>
  {
    if s.Page? then s.entities else []
  }

  /** Everything the walk yields: each page's entities in page order. */
  function Yielded(pages: seq<Fetched>): seq<Json>
  {
    if pages == [] then [] else Yielded(pages[..|pages| - 1]) + Entities(Last(pages).step)
  }

  /** How the walk ends: the number of pages read (the source's
      `page_counter`), or the exception that stopped it. */
  function Outcome(pages: seq<Fetched>): (r: Result<nat, Error>)
    requires |pages| >= 1
  {
    var s := Last(pages).step;
    if s.Halted? then Failure(s.error)
    else if s.cursor.BadCursor? then Failure(CursorFailure(s.cursor.value))
    else Success(|pages|)
  }

  lemma {:induction false} YieldedAppend(a: seq<Fetched>, b: seq<Fetched>)
    ensures Yielded(a + b) == Yielded(a) + Yielded(b)
    decreases |b|
  {
    if b == [] {
      assert a + b == a;
    } else {
      assert (a + b)[..|a + b| - 1] == a + b[..|b| - 1];
      YieldedAppend(a, b[..|b| - 1]);
    }
  }

  /** One more page adds its entities at the end and decides the outcome. */
  lemma YieldedSnoc(done: seq<Fetched>, p: Fetched)
    ensures Yielded(done + [p]) == Yielded(done) + Entities(p.step)
    ensures Outcome(done + [p]) == Outcome([p]) || |done| > 0
    ensures p.step.Halted? ==> Outcome(done + [p]) == Failure(p.step.error)
  {
    assert (done + [p])[..|done|] == done;
    assert Last(done + [p]) == p;
  }

  /** Entity `k` of page `i` is yielded right after everything the pages
      before `i` yielded: page order, then order within the page. */
  lemma YieldedOrder(pages: seq<Fetched>, i: nat, k: nat)
    requires i < |pages| && k < |Entities(pages[i].step)|
    ensures |Yielded(pages[..i])| + k < |Yielded(pages)|
    ensures Yielded(pages)[|Yielded(pages[..i])| + k] == Entities(pages[i].step)[k]
  {
    assert pages == pages[..i] + [pages[i]] + pages[i + 1..];
    YieldedAppend(pages[..i] + [pages[i]], pages[i + 1..]);
    YieldedAppend(pages[..i], [pages[i]]);
    assert Yielded([pages[i]]) == Entities(pages[i].step) by {
      assert [pages[i]][..0] == [];
    }
  }

  /** A walk that ends in an exception has yielded exactly the entities of the
      pages before it, and each of those pages was read in full. */
  lemma HaltKeepsEarlier(start: string, pages: seq<Fetched>)
    requires Chained(start, pages) && Last(pages).step.Halted?
    ensures Yielded(pages) == Yielded(pages[..|pages| - 1])
    ensures Outcome(pages) == Failure(Last(pages).step.error)
    ensures forall i :: 0 <= i < |pages| - 1 ==> pages[i].step.Page?
  {
    forall i | 0 <= i < |pages| - 1 ensures pages[i].step.Page? {
      assert LinksTo(pages[i], pages[i + 1]);
    }
  }

  /** A walk ends without an exception exactly when its last page has no link,
      and it then reports the number of pages it read. */
  lemma CompletedWalk(start: string, pages: seq<Fetched>)
    requires Chained(start, pages)
    ensures Outcome(pages).Success? <==> Last(pages).step.Page? && Last(pages).step.cursor.End?
    ensures Outcome(pages).Success? ==> Outcome(pages).value == |pages|
  {
  }
}
