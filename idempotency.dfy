/** The idempotency guard (middlewares/idempotency.js): for each request it
    passes through, rejects a malformed key, replays a cached response or lets
    the handler run and caches what it answers. The cache is a map changed in
    place; the sweep that the service runs every ten minutes takes the time as
    a parameter. */
module Idempotency {
  import opened Wrappers
  import opened Json
  import Text

  /** The parts of a request the guard reads. `key` is the Idempotency-Key
      header and `sub` the authenticated caller, when there is one. */
  datatype Request = Request(httpMethod: string, path: string, key: Option<string>, sub: Option<string>)

  /** A cached response and the time it was stored, in milliseconds. */
  datatype Cached = Cached(status: int, body: Json, timestamp: int)

  datatype Decision =
    | PassThrough(headerKey: Option<string>) // the handler runs uncached; a synthesised key, if any
    | Reject(response: Response)            // answered here, the handler does not run
    | Replay(response: Response)            // the cached answer, the handler does not run
    | Execute(cacheKey: string)             // the handler runs and its answer is cached

  /** Entries older than this are swept: 24 hours. */
  const MaxAge: int := 24 * 60 * 60 * 1000

  predicate IsMutating(httpMethod: string) {
    httpMethod in ["POST", "PUT", "PATCH"]
  }

  /** A header that is absent or empty counts as no key. */
  predicate HasKey(r: Request) {
    r.key.Some? && r.key.value != ""
  }

  predicate KeyChar(c: char) {
    'a' <= c <= 'z' || 'A' <= c <= 'Z' || '0' <= c <= '9' || c == '-' || c == '_'
  }

  /** The key matches `^[a-zA-Z0-9\-_]{1,255}$`. */
  predicate ValidKey(k: string) {
    1 <= |k| <= 255 && forall i :: 0 <= i < |k| ==> KeyChar(k[i])
  }

  /** The answer to a malformed key. */
  const InvalidKeyResponse: Response :=
    Response(400, JObj([("ok", JBool(false)),
                        ("error", JObj([("message", JStr("Invalid idempotency key format")),
                                        ("code", JStr("INVALID_IDEMPOTENCY_KEY"))]))]))

  /** The caller's id, or `anonymous` when there is none or it is empty. */
  function Caller(sub: Option<string>): (r: string)
    ensures sub.Some? && sub.value != "" ==> r == sub.value
    ensures !(sub.Some? && sub.value != "") ==> r == "anonymous"
  {
    if sub.Some? && sub.value != "" then sub.value else "anonymous"
  }

  /** The cache key: caller, method, path and key, separated by colons. */
  function CacheKey(r: Request): string
    requires r.key.Some?
  {
    Caller(r.sub) + ":" + r.httpMethod + ":" + r.path + ":" + r.key.value
  }

  /** The guard's decision for `r` against the cache `entries`; `uuid` stands
      for the random key synthesised for ticket and triage paths. */
  function Decide(entries: map<string, Cached>, r: Request, uuid: string): (d: Decision)
    ensures !IsMutating(r.httpMethod) ==> d == PassThrough(None)
    ensures IsMutating(r.httpMethod) && !HasKey(r) ==>
              d.PassThrough? &&
              (d.headerKey.Some? <==> Text.Contains(r.path, "/tickets") || Text.Contains(r.path, "/triage"))
    ensures IsMutating(r.httpMethod) && HasKey(r) ==>
              (d.Reject? <==> !ValidKey(r.key.value)) &&
              (d.Replay? <==> ValidKey(r.key.value) && CacheKey(r) in entries) &&
              (d.Execute? <==> ValidKey(r.key.value) && CacheKey(r) !in entries)
  {
    if !IsMutating(r.httpMethod) then PassThrough(None)
    else if !HasKey(r) then
      if Text.Contains(r.path, "/tickets") || Text.Contains(r.path, "/triage") then PassThrough(Some(uuid))
      else PassThrough(None)
    else if !ValidKey(r.key.value) then Reject(InvalidKeyResponse)
    else
      var key := CacheKey(r);
      if key in entries then Replay(Response(entries[key].status, entries[key].body))
      else Execute(key)
  }

  /** The entries the sweep at time `now` keeps. */
  function Unexpired(m: map<string, Cached>, now: int): (r: map<string, Cached>)
    ensures forall k :: k in r <==> k in m && now - m[k].timestamp <= MaxAge
    ensures forall k :: k in r ==> r[k] == m[k]
  {
    map k | k in m && now - m[k].timestamp <= MaxAge :: m[k]
  }

  /** The process-wide cache. */
  class Store {
    var entries: map<string, Cached>

    constructor ()
      ensures entries == map[]
    {
      entries := map[];
    }

    /** The replaced `res.json`: stores the answer under the key with the time
      it was sent. */
    method Capture(key: string, response: Response, now: int)
      modifies this
      ensures entries == old(entries)[key := Cached(response.status, response.body, now)]
    {
      entries := entries[key := Cached(response.status, response.body, now)];
    }

    /** A whole request through the guard: `handler` is the answer the route
      would give. Returns the answer sent and whether the handler ran. */
    method Serve(r: Request, uuid: string, handler: Response, now: int) returns (sent: Response, ran: bool)
      modifies this
      ensures var d := Decide(old(entries), r, uuid);
              (d.PassThrough? ==> sent == handler && ran && entries == old(entries)) &&
              (d.Reject? ==> sent == d.response && !ran && entries == old(entries)) &&
              (d.Replay? ==> sent == d.response && !ran && entries == old(entries)) &&
              (d.Execute? ==> sent == handler && ran &&
                              entries == old(entries)[d.cacheKey := Cached(handler.status, handler.body, now)])
    {
      var d := Decide(entries, r, uuid);
      match d
      case PassThrough(_) =>
        sent, ran := handler, true;
      case Reject(response) =>
        sent, ran := response, false;
      case Replay(response) =>
        sent, ran := response, false;
      case Execute(key) =>
        Capture(key, handler, now);
        sent, ran := handler, true;
    }

    /** The periodic sweep: deletes, one by one, the entries stored more than
      24 hours before `now`. */
    method Sweep(now: int)
      modifies this
      ensures entries == Unexpired(old(entries), now)
    {
      var pending := entries.Keys;
      while pending != {}
        invariant pending <= old(entries).Keys
        invariant entries == map k | k in old(entries) && (k in pending || now - old(entries)[k].timestamp <= MaxAge)
                               :: old(entries)[k]
        decreases |pending|
      {
        var k :| k in pending;
        if now - entries[k].timestamp > MaxAge {
          entries := map j | j in entries && j != k :: entries[j];
        }
        pending := pending - {k};
      }
    }
  }

  /** A second identical request after the first was handled and captured is
      answered from the cache with the captured response, and the handler
      does not run again. */
  lemma ReplayAfterCapture(entries: map<string, Cached>, r: Request, uuid: string, response: Response, now: int)
    requires Decide(entries, r, uuid).Execute?
    ensures var key := Decide(entries, r, uuid).cacheKey;
            Decide(entries[key := Cached(response.status, response.body, now)], r, uuid) == Replay(response)
  {
  }

  /** A captured entry survives every sweep within 24 hours of its capture and
      no sweep after that. */
  lemma CaptureSurvivesDay(m: map<string, Cached>, key: string, response: Response, at: int, now: int)
    ensures key in Unexpired(m[key := Cached(response.status, response.body, at)], now) <==> now - at <= MaxAge
  {
  }

  /** Sweeping twice at the same time removes nothing more. */
  lemma SweepIdempotent(m: map<string, Cached>, now: int)
    ensures Unexpired(Unexpired(m, now), now) == Unexpired(m, now)
  {
  }

  /** Behind a mount before authentication no caller id is known, so every
      cache key starts with `anonymous:`. */
  lemma AnonymousWithoutCaller(r: Request)
    requires r.key.Some? && r.sub.None?
    ensures CacheKey(r) == "anonymous" + ":" + r.httpMethod + ":" + r.path + ":" + r.key.value
  {
  }
}
