/**
 * internal/redis: a storage port over Redis. `Save` is `SET key url NX EX ttl`
 * (set if absent, with a time to live fixed when the client is made) and `Get`
 * is a plain read that reports an absent or expired key as `ErrMissingKey`.
 * The Redis server is modelled as a map from key to entry and an explicit clock.
 */
module RedisStore {
  import opened Wrappers
  import opened Http
  import opened ShortKey
  import opened DynamicRedirect

  const SecondsPerMinute := 60

  /** A stored URL and the second at which Redis drops it. */
  datatype Entry = Entry(url: string, expiresAt: int)

  /** The key is present and its time to live has not run out at `now`. */
  predicate Live(entries: map<string, Entry>, now: int, key: string)
  {
    key in entries && now < entries[key].expiresAt
  }

  /**
   * The server's side of `SET key url NX EX ttl` at time `now`: after it the
   * key is live (for a positive time to live), it holds `url` exactly when it
   * was not live before, and no other key is touched.
   */
  function SetNX(entries: map<string, Entry>, now: int, ttlSeconds: nat, key: string, url: string): (r: map<string, Entry>)
    requires ttlSeconds > 0
    ensures r.Keys == entries.Keys + {key}
    ensures forall k :: k in entries && k != key ==> r[k] == entries[k]
    ensures Live(r, now, key)
    ensures Live(entries, now, key) ==> r[key] == entries[key]
    ensures !Live(entries, now, key) ==> r[key].url == url && r[key].expiresAt == now + ttlSeconds
  {
    if Live(entries, now, key) then entries else entries[key := Entry(url, now + ttlSeconds)]
  }

  /**
   * What `client.Get` returns when the server is reachable: the URL of a live
   * key with no error, and otherwise `redis.Nil` reported as `ErrMissingKey`
   * with an empty URL.
   */
  function Lookup(entries: map<string, Entry>, now: int, key: string): (r: GetReply)
    ensures r.err.None? <==> Live(entries, now, key)
    ensures r.err.None? ==> r.url == entries[key].url
    ensures r.err.Some? ==> r.url == "" && r.err.value == ErrMissingKey
  {
    if Live(entries, now, key) then GetReply(entries[key].url, None) else GetReply("", Some(ErrMissingKey))
  }

  class Client {
    /** The server's keyspace. */
    var entries: map<string, Entry>
    /** The server's clock, in seconds. */
    var now: int
    const expirationMinutes: nat

    /** Every key the client saves gets a positive time to live. */
    predicate Valid()
    {
      expirationMinutes > 0
    }

    /**
     * `New`: attaches to a server whose keyspace is `initial` at time `now`; the
     * time to live is fixed here, once.
     */
    constructor New(expirationMinutes: nat, now: int, initial: map<string, Entry>)
      requires expirationMinutes > 0
      ensures Valid()
      ensures this.expirationMinutes == expirationMinutes && this.now == now && entries == initial
    {
      this.expirationMinutes := expirationMinutes;
      this.now := now;
      entries := initial;
    }

    function TtlSeconds(): nat
    {
      expirationMinutes * SecondsPerMinute
    }

    /**
     * `Save`: set if absent, with the client's time to live. A present, unexpired
     * key is left alone and still reported as success; only a backend failure
     * (`fault`) is an error, and it is returned as it came.
     */
    method Save(key: string, url: string, fault: Option<string>) returns (err: Option<Error>)
      requires Valid()
      modifies this`entries
      ensures fault.Some? ==> err == Some(BackendError(fault.value)) && entries == old(entries)
      ensures fault.None? ==> err == None && entries == SetNX(old(entries), now, TtlSeconds(), key, url)
    {
      if fault.Some? {
        return Some(BackendError(fault.value));
      }
      if !Live(entries, now, key) {
        entries := entries[key := Entry(url, now + TtlSeconds())];
      }
      return None;
    }

    /**
     * `Get`: the stored URL of a live key; "" with `ErrMissingKey` when the key
     * is absent or expired; "" with the backend's own error otherwise.
     */
    method Get(key: string, fault: Option<string>) returns (url: string, err: Option<Error>)
      ensures fault.Some? ==> url == "" && err == Some(BackendError(fault.value))
      ensures fault.None? && Live(entries, now, key) ==> url == entries[key].url && err == None
      ensures fault.None? && !Live(entries, now, key) ==> url == "" && err == Some(ErrMissingKey)
      ensures fault.None? ==> GetReply(url, err) == Lookup(entries, now, key)
    {
      if fault.Some? {
        return "", Some(BackendError(fault.value));
      }
      if !(key in entries && now < entries[key].expiresAt) {
        return "", Some(ErrMissingKey);
      }
      return entries[key].url, None;
    }

    /** Time passing on the server. */
    method Advance(seconds: nat)
      modifies this`now
      ensures now == old(now) + seconds
    {
      now := now + seconds;
    }
  }

  /** `TestSaveAndGet`: a saved fresh key reads back at once. */
  method SaveAndGet(c: Client, key: string, url: string) returns (got: string, err: Option<Error>)
    requires c.Valid() && !Live(c.entries, c.now, key)
    modifies c
    ensures got == url && err == None
  {
    var saveErr := c.Save(key, url, None);
    got, err := c.Get(key, None);
  }

  /**
   * A fresh key saved through the client, then read `seconds` later: the URL
   * while the time to live lasts, `ErrMissingKey` once it has run out.
   */
  method SaveWaitGet(c: Client, key: string, url: string, seconds: nat) returns (got: string, err: Option<Error>)
    requires c.Valid() && !Live(c.entries, c.now, key)
    modifies c
    ensures seconds < c.TtlSeconds() ==> got == url && err == None
    ensures seconds >= c.TtlSeconds() ==> got == "" && err == Some(ErrMissingKey)
  {
    var saveErr := c.Save(key, url, None);
    c.Advance(seconds);
    got, err := c.Get(key, None);
  }

  /** `Save` never overwrites: a live key keeps its URL and its expiry. */
  lemma SaveKeepsLiveKey(entries: map<string, Entry>, now: int, ttlSeconds: nat, key: string, url: string)
    requires ttlSeconds > 0
    requires Live(entries, now, key)
    ensures SetNX(entries, now, ttlSeconds, key, url) == entries
  {
  }

  /** `Save` changes nothing a read of another key can see, at any time. */
  lemma SaveLeavesOtherKeys(entries: map<string, Entry>, now: int, ttlSeconds: nat, key: string, url: string,
                            other: string, t: int)
    requires ttlSeconds > 0 && other != key
    ensures Lookup(SetNX(entries, now, ttlSeconds, key, url), t, other) == Lookup(entries, t, other)
  {
  }

  /**
   * A fresh key saved at `now` reads back as its URL until `ttl` seconds have
   * passed, and as `ErrMissingKey` from then on.
   */
  lemma SaveThenGetWithinTtl(entries: map<string, Entry>, now: int, ttlSeconds: nat, key: string, url: string, t: int)
    requires ttlSeconds > 0 && !Live(entries, now, key) && now <= t
    ensures Lookup(SetNX(entries, now, ttlSeconds, key, url), t, key)
            == if t < now + ttlSeconds then GetReply(url, None) else GetReply("", Some(ErrMissingKey))
  {
  }

  /**
   * Shorten, then retrieve: a valid POST against a reachable store whose
   * generated key is free renders `host/short/key`, stores the URL under that
   * key, and a GET of `/short/key` redirects to the URL until the time to live
   * runs out, after which it reaches the fallback.
   */
  lemma ShortenThenRetrieve(entries: map<string, Entry>, now: int, minutes: nat, host: string,
                            isRequestURI: string -> bool, req: Request, draws: seq<CharIndex>, t: int)
    requires |draws| == KeyLength && minutes > 0 && now <= t
    requires req.verb == MethodPost && FormValue(req, "url") != "" && isRequestURI(FormValue(req, "url"))
    requires !Live(entries, now, KeyFromDraws(draws))
    ensures var r := Shortener((k, u) => None, host, isRequestURI, req, draws);
            var key := KeyFromDraws(draws);
            var url := FormValue(req, "url");
            var stored := SetNX(entries, now, minutes * SecondsPerMinute, key, url);
            var retrieval := Request(MethodGet, ShortRoute + key, map[]);
            && r == Response(Rendered(url, host + ShortRoute + key), [SaveCall(key, url)])
            && RetrieveHandler(k => Lookup(stored, t, k), retrieval).outcome
               == if t < now + minutes * SecondsPerMinute then Redirect(url) else Fallback(retrieval)
  {
    var key := KeyFromDraws(draws);
    var url := FormValue(req, "url");
    var stored := SetNX(entries, now, minutes * SecondsPerMinute, key, url);
    RetrieveShortPathOutcome(k => Lookup(stored, t, k), key);
  }

  /**
   * The key-collision gap: when the generated key is already live for another
   * URL, the shortener still reports success, yet the short URL leads to the
   * first writer's URL.
   */
  lemma CollisionKeepsFirstWriter(entries: map<string, Entry>, now: int, minutes: nat, host: string,
                                  isRequestURI: string -> bool, req: Request, draws: seq<CharIndex>)
    requires |draws| == KeyLength && minutes > 0
    requires req.verb == MethodPost && FormValue(req, "url") != "" && isRequestURI(FormValue(req, "url"))
    requires Live(entries, now, KeyFromDraws(draws))
    ensures var key := KeyFromDraws(draws);
            var stored := SetNX(entries, now, minutes * SecondsPerMinute, key, FormValue(req, "url"));
            var retrieval := Request(MethodGet, ShortRoute + key, map[]);
            && Shortener((k, u) => None, host, isRequestURI, req, draws).outcome.Rendered?
            && RetrieveHandler(k => Lookup(stored, now, k), retrieval).outcome == Redirect(entries[key].url)
  {
    var key := KeyFromDraws(draws);
    var stored := SetNX(entries, now, minutes * SecondsPerMinute, key, FormValue(req, "url"));
    RetrieveShortPathOutcome(k => Lookup(stored, now, k), key);
  }
}
