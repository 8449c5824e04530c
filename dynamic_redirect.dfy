/**
 * The dynamic resolver of handler.go: `Shortener` (write path) and
 * `RetrieveHandler` (read path), each against an abstract storage port.
 */
module DynamicRedirect {
  import opened Wrappers
  import opened GoStrings
  import opened Http
  import opened ShortKey

  /** Errors a storage port returns: `ErrMissingKey`, or anything else with its text. */
  datatype Error = ErrMissingKey | BackendError(text: string)

  /** `err.Error()`: the fixed text of `ErrMissingKey`, or the backend's own text. */
  function ErrorText(e: Error): string
  {
    match e
    case ErrMissingKey => "key not found"
    case BackendError(text) => text
  }

  /** The `(string, error)` pair `UrlShortGetter.Get` returns. */
  datatype GetReply = GetReply(url: string, err: Option<Error>)

  /** A call a handler makes on its storage port. */
  datatype StoreCall = SaveCall(key: string, url: string) | GetCall(key: string)

  /** What a handler does for one request, with the storage calls it made, in order. */
  datatype Response = Response(outcome: Outcome, calls: seq<StoreCall>)

  const MissingUrlMessage := "URL parameter is missing"
  const SaveFailedMessage := "error saving short url"
  /** Characters `RetrieveHandler` trims from both ends of the path. */
  const RouteCutset := "/ "
  /** Text between the host and the key in a short URL. */
  const ShortRoute := "/short/"

  /**
   * `Shortener(saver, host, fallback)` applied to one request. `save` is the
   * port's `Save` (its error, if any), `isRequestURI` stands for
   * `url.ParseRequestURI` succeeding, and `draws` are the six random indices
   * the key is made from.
   */
  function Shortener(save: (string, string) -> Option<Error>, host: string, isRequestURI: string -> bool,
                     req: Request, draws: seq<CharIndex>): (r: Response)
    requires |draws| == KeyLength
    ensures req.verb != MethodPost ==> r == Response(MethodNotAllowed, [])
    ensures req.verb == MethodPost && FormValue(req, "url") == "" ==> r == Response(BadRequest(MissingUrlMessage), [])
    ensures req.verb == MethodPost && FormValue(req, "url") != "" && !isRequestURI(FormValue(req, "url"))
            ==> r == Response(Fallback(req), [])
    ensures r.calls != [] <==> req.verb == MethodPost && FormValue(req, "url") != "" && isRequestURI(FormValue(req, "url"))
    ensures r.calls != [] ==> |r.calls| == 1 && r.calls[0].SaveCall?
                              && IsShortKey(r.calls[0].key) && r.calls[0].url == FormValue(req, "url")
    ensures r.calls != [] ==> var c := r.calls[0];
            r.outcome == if save(c.key, c.url).Some? then InternalError(SaveFailedMessage)
                         else Rendered(c.url, host + ShortRoute + c.key)
  {
    if req.verb != MethodPost then Response(MethodNotAllowed, [])
    else
      var originalUrl := FormValue(req, "url");
      if originalUrl == "" then Response(BadRequest(MissingUrlMessage), [])
      else if !isRequestURI(originalUrl) then Response(Fallback(req), [])
      else
        var shortKey := KeyFromDraws(draws);
        var calls := [SaveCall(shortKey, originalUrl)];
        if save(shortKey, originalUrl).Some? then Response(InternalError(SaveFailedMessage), calls)
        else Response(Rendered(originalUrl, host + ShortRoute + shortKey), calls)
  }

  /** `t` is some text without '/', then '/', then `key`. */
  ghost predicate SplitsAtFirstSlash(t: string, key: string)
  {
    |key| < |t| && t[..|t| - |key| - 1] + ['/'] + key == t && '/' !in t[..|t| - |key| - 1]
  }

  /**
   * `key` is everything after the first '/' of the path once '/' and ' ' are
   * trimmed from both of its ends.
   */
  ghost predicate RoutesToKey(path: string, key: string)
  {
    SplitsAtFirstSlash(Trim(path, RouteCutset), key)
  }

  /**
   * The key `RetrieveHandler` looks up: the second part of `SplitN` on '/' of
   * the path with '/' and ' ' trimmed from both ends, if there are two parts.
   */
  function RoutedKey(path: string): (k: Option<string>)
    ensures k.None? <==> '/' !in Trim(path, RouteCutset)
    ensures k.Some? ==> RoutesToKey(path, k.value)
  {
    var paths := SplitN2(Trim(path, RouteCutset), '/');
    if |paths| != 2 then None else Some(paths[1])
  }

  /**
   * `RetrieveHandler(getter, fallback)` applied to one request: only GET is
   * served; a path without a routed key is not found; otherwise the routed
   * key is looked up once and the reply decides the outcome.
   */
  function RetrieveHandler(get: string -> GetReply, req: Request): (r: Response)
    ensures req.verb != MethodGet ==> r == Response(MethodNotAllowed, [])
    ensures req.verb == MethodGet && RoutedKey(req.path).None? ==> r == Response(NotFound, [])
    ensures req.verb == MethodGet && RoutedKey(req.path).Some? ==> r.calls == [GetCall(RoutedKey(req.path).value)]
    ensures r.calls != [] ==> var reply := get(r.calls[0].key);
            r.outcome == match reply.err
                         case None => Redirect(reply.url)
                         case Some(ErrMissingKey) => Fallback(req)
                         case Some(e) => InternalError(ErrorText(e))
  {
    if req.verb != MethodGet then Response(MethodNotAllowed, [])
    else match RoutedKey(req.path)
      case None => Response(NotFound, [])
      case Some(key) =>
        var reply := get(key);
        var calls := [GetCall(key)];
        if reply.err == Some(ErrMissingKey) then Response(Fallback(req), calls)
        else if reply.err.Some? then Response(InternalError(ErrorText(reply.err.value)), calls)
        else Response(Redirect(reply.url), calls)
  }

  /**
   * A 500 from `RetrieveHandler` shows the backend's own error text, and a
   * missing key never produces one.
   */
  lemma RetrieveErrorShowsBackendText(get: string -> GetReply, req: Request)
    ensures var r := RetrieveHandler(get, req);
            r.outcome.InternalError? ==> r.calls != [] && get(r.calls[0].key).err == Some(BackendError(r.outcome.message))
  {
    var r := RetrieveHandler(get, req);
    if r.outcome.InternalError? {
      assert req.verb == MethodGet && RoutedKey(req.path).Some?;
      var e := get(r.calls[0].key).err;
      assert e.Some? && e.value.BackendError?;
    }
  }

  /** The key after the first '/' is unique: a trimmed path names at most one key. */
  lemma RoutedKeyUnique(t: string, k1: string, k2: string)
    requires SplitsAtFirstSlash(t, k1) && SplitsAtFirstSlash(t, k2)
    ensures k1 == k2
  {
    FirstSplitUnique(t, '/', t[..|t| - |k1| - 1], k1, t[..|t| - |k2| - 1], k2);
  }

  /** A text that splits at a '/' holds a '/'. */
  lemma SplitHasSlash(t: string, key: string)
    requires SplitsAtFirstSlash(t, key)
    ensures '/' in t
  {
    var head := t[..|t| - |key| - 1];
    assert t[|head|] == (head + ['/'] + key)[|head|];
  }

  /** A path that routes to `key` has `key` as its routed key. */
  lemma RoutedKeyExact(path: string, key: string)
    requires RoutesToKey(path, key)
    ensures RoutedKey(path) == Some(key)
  {
    var t := Trim(path, RouteCutset);
    SplitHasSlash(t, key);
    RoutedKeyUnique(t, RoutedKey(path).value, key);
  }

  /** A GET whose path routes to `key` makes exactly one call, `Get(key)`. */
  lemma RetrieveLooksUpRoutedKey(get: string -> GetReply, req: Request, key: string)
    requires req.verb == MethodGet && RoutesToKey(req.path, key)
    ensures RetrieveHandler(get, req).calls == [GetCall(key)]
  {
    RoutedKeyExact(req.path, key);
  }

  /**
   * A GET of `/short/` followed by a key looks up exactly that key, even one
   * holding further slashes.
   */
  lemma RetrieveShortPath(get: string -> GetReply, key: string)
    requires key != [] && key[|key| - 1] != '/' && key[|key| - 1] != ' '
    ensures RetrieveHandler(get, Request(MethodGet, ShortRoute + key, map[])).calls == [GetCall(key)]
  {
    ShortPathRoutes(key);
    RetrieveLooksUpRoutedKey(get, Request(MethodGet, ShortRoute + key, map[]), key);
  }

  /** A GET of `/short/` followed by a key is answered from `Get(key)` alone. */
  lemma RetrieveShortPathOutcome(get: string -> GetReply, key: string)
    requires key != [] && key[|key| - 1] != '/' && key[|key| - 1] != ' '
    ensures var req := Request(MethodGet, ShortRoute + key, map[]);
            var reply := get(key);
            RetrieveHandler(get, req).outcome
            == if reply.err == None then Redirect(reply.url)
               else if reply.err == Some(ErrMissingKey) then Fallback(req)
               else InternalError(ErrorText(reply.err.value))
  {
    RetrieveShortPath(get, key);
  }

  /** The key may hold further slashes: `/short/a/b` looks up `a/b`. */
  lemma KeyMayHoldSlashes(get: string -> GetReply)
    ensures RetrieveHandler(get, Request(MethodGet, "/short/a/b", map[])).calls == [GetCall("a/b")]
  {
    assert ShortRoute + "a/b" == "/short/a/b";
    RetrieveShortPath(get, "a/b");
  }

  /** Only the path's ends are trimmed: `/short//x` looks up `/x`. */
  lemma KeyMayStartWithSlash(get: string -> GetReply)
    ensures RetrieveHandler(get, Request(MethodGet, "/short//x", map[])).calls == [GetCall("/x")]
  {
    assert ShortRoute + "/x" == "/short//x";
    RetrieveShortPath(get, "/x");
  }

  /**
   * The write path never reveals the storage error: two ports that both fail,
   * with any texts, give the same response.
   */
  lemma SaveErrorNotLeaked(save1: (string, string) -> Option<Error>, save2: (string, string) -> Option<Error>,
                           host: string, isRequestURI: string -> bool, req: Request, draws: seq<CharIndex>)
    requires |draws| == KeyLength
    requires forall k, u :: save1(k, u).Some? && save2(k, u).Some?
    ensures Shortener(save1, host, isRequestURI, req, draws) == Shortener(save2, host, isRequestURI, req, draws)
  {
  }

  /**
   * A POST is rejected with 400 and no Save exactly when its `url` field is
   * absent or empty.
   */
  lemma MissingUrlIsBadRequest(save: (string, string) -> Option<Error>, host: string, isRequestURI: string -> bool,
                               req: Request, draws: seq<CharIndex>)
    requires |draws| == KeyLength
    ensures var r := Shortener(save, host, isRequestURI, req, draws);
            r.outcome.BadRequest? <==> req.verb == MethodPost && ("url" !in req.form || req.form["url"] == "")
    ensures var r := Shortener(save, host, isRequestURI, req, draws);
            r.outcome.BadRequest? ==> r == Response(BadRequest(MissingUrlMessage), [])
  {
  }

  /** The only facts about `url.ParseRequestURI` the handler tests pin down. */
  ghost predicate AgreesWithTests(isRequestURI: string -> bool)
  {
    && isRequestURI("http://google.com")
    && isRequestURI("http://www.google.com")
    && !isRequestURI("google")
    && !isRequestURI("google.com")
  }

  /** The `Shortener` tests, for any `url.ParseRequestURI` consistent with them. */
  lemma ShortenerTestCases(isRequestURI: string -> bool, draws: seq<CharIndex>)
    requires AgreesWithTests(isRequestURI) && |draws| == KeyLength
    ensures var ok := (k: string, u: string) => None;
            var failing := (k: string, u: string) => Some(BackendError("something happened"));
            var host := "http://localhost:8080";
            && Status(Shortener(ok, host, isRequestURI, Request(MethodPost, "/shorten", map["url" := "http://google.com"]), draws).outcome)
               == Some(StatusOK)
            && Shortener(ok, host, isRequestURI, Request(MethodPost, "/shorten", map["url" := "google"]), draws).outcome.Fallback?
            && Shortener(ok, host, isRequestURI, Request(MethodPost, "/shorten", map["url" := "google.com"]), draws).outcome.Fallback?
            && Shortener(ok, host, isRequestURI, Request(MethodPost, "/shorten", map["url" := ""]), draws).outcome
               == BadRequest(MissingUrlMessage)
            && Status(Shortener(ok, host, isRequestURI, Request(MethodPost, "/shorten", map["url" := ""]), draws).outcome)
               == Some(StatusBadRequest)
            && Shortener(ok, host, isRequestURI, Request(MethodGet, "/shorten", map["url" := "http://www.google.com"]), draws).outcome
               == MethodNotAllowed
            && Shortener(failing, host, isRequestURI, Request(MethodPost, "/shorten", map["url" := "http://www.google.com"]), draws)
               .outcome == InternalError(SaveFailedMessage)
            && Status(Shortener(failing, host, isRequestURI, Request(MethodPost, "/shorten", map["url" := "http://www.google.com"]), draws)
               .outcome) == Some(StatusInternalServerError)
  {
  }

  /**
   * The `RetrieveHandler` tests, for `/short/CSl5Ow`: a getter that finds the
   * key gets a 301, one that misses reaches the fallback, one that fails gets
   * a 500 with its text. (The POST case is the first clause of the
   * `RetrieveHandler` contract.)
   */
  lemma RetrieveHandlerTestCases(get: string -> GetReply)
    ensures var req := RetrieveTestRequest(MethodGet);
            var reply := get("CSl5Ow");
            && (reply == GetReply("http://www.google.com", None)
                ==> RetrieveHandler(get, req).outcome == Redirect("http://www.google.com"))
            && (reply == GetReply("", Some(ErrMissingKey)) ==> RetrieveHandler(get, req).outcome == Fallback(req))
            && (reply == GetReply("", Some(BackendError("some error")))
                ==> RetrieveHandler(get, req).outcome == InternalError("some error"))
  {
    RetrieveShortPathOutcome(get, "CSl5Ow");
  }

  /** The status codes the `RetrieveHandler` tests check: 301 for a found key, 500 for a failing getter. */
  lemma RetrieveHandlerTestStatuses(get: string -> GetReply)
    ensures var reply := get("CSl5Ow");
            var status := Status(RetrieveHandler(get, RetrieveTestRequest(MethodGet)).outcome);
            && (reply == GetReply("http://www.google.com", None) ==> status == Some(StatusMovedPermanently))
            && (reply == GetReply("", Some(BackendError("some error"))) ==> status == Some(StatusInternalServerError))
  {
    RetrieveHandlerTestCases(get);
  }

  /** The request of the `RetrieveHandler` tests, `/short/CSl5Ow`. */
  function RetrieveTestRequest(verb: string): Request
  {
    Request(verb, ShortRoute + "CSl5Ow", map[])
  }

  /**
   * A path made of '/', a first segment and a key (trimmed at neither end)
   * trims to the segment, '/' and the key, and routes to the key.
   */
  lemma SegmentThenKeyRoutes(head: string, key: string)
    requires head != [] && head[0] != '/' && head[0] != ' ' && '/' !in head
    requires key != [] && key[|key| - 1] != '/' && key[|key| - 1] != ' '
    ensures Trim(['/'] + (head + ['/'] + key), RouteCutset) == head + ['/'] + key
    ensures RoutesToKey(['/'] + (head + ['/'] + key), key)
  {
    var t := head + ['/'] + key;
    assert t[0] == head[0] && t[|t| - 1] == key[|key| - 1];
    TrimDropsLeadingCut('/', t, RouteCutset);
    SegmentThenKeySplits(head, key);
  }

  /** Text without '/', then '/', then a key splits at that '/'. */
  lemma SegmentThenKeySplits(head: string, key: string)
    requires '/' !in head
    ensures SplitsAtFirstSlash(head + ['/'] + key, key)
  {
    var t := head + ['/'] + key;
    assert t[..|t| - |key| - 1] == head;
  }

  /** The path of a short URL routes to its key, for any key the generator makes. */
  lemma ShortPathRoutes(key: string)
    requires key != [] && key[|key| - 1] != '/' && key[|key| - 1] != ' '
    ensures Trim(ShortRoute + key, RouteCutset) == "short/" + key
    ensures '/' in Trim(ShortRoute + key, RouteCutset) && RoutesToKey(ShortRoute + key, key)
  {
    assert ShortRoute + key == ['/'] + ("short" + ['/'] + key);
    assert "short/" + key == "short" + ['/'] + key;
    SegmentThenKeyRoutes("short", key);
  }
}
