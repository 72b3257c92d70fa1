/** auth.interceptor.ts: attach the bearer token to every request when a
    token exists; on a 401 failure log out and go to the login page. The
    failure itself is passed on unchanged. `next` is the rest of the chain. */
module AuthInterceptor {
  import opened Common
  import opened Http
  import opened Navigation
  import opened Session

  const AuthorizationHeader := "Authorization"
  const ContentTypeHeader := "Content-Type"
  const JsonContentType := "application/json"

  /** The request forwarded to `next`: `req.clone({setHeaders: ...})` when the
      token is truthy, `req` itself otherwise. */
  function WithCredentials(req: Request, token: Option<string>): (r: Request)
    ensures !Truthy(token) ==> r == req
    ensures Truthy(token) ==>
              && r.verb == req.verb && r.url == req.url && r.params == req.params
              && AuthorizationHeader in r.headers && r.headers[AuthorizationHeader] == "Bearer " + token.value
              && ContentTypeHeader in r.headers && r.headers[ContentTypeHeader] == JsonContentType
              && r.headers.Keys == req.headers.Keys + {AuthorizationHeader, ContentTypeHeader}
              && forall h :: h in req.headers && h != AuthorizationHeader && h != ContentTypeHeader ==>
                               r.headers[h] == req.headers[h]
  {
    if Truthy(token) then
      req.(headers := req.headers[AuthorizationHeader := "Bearer " + token.value][ContentTypeHeader := JsonContentType])
    else req
  }

  predicate IsUnauthorized(o: Outcome) {
    o.Errored? && o.error.status == 401
  }

  /** `authInterceptor`. A 401 navigates to /login twice: once inside
      `logout()` and once here. */
  method Intercept(auth: AuthService, req: Request, next: Request -> Outcome)
      returns (forwarded: Request, result: Outcome)
    modifies auth, auth.router
    ensures forwarded == WithCredentials(req, old(auth.token))
    ensures result == next(forwarded)
    ensures IsUnauthorized(result) ==>
              && auth.token == None && auth.user == None
              && auth.storage == old(auth.storage) - {TokenKey, UserKey}
              && auth.router.history == old(auth.router.history) + [To(LoginPath), To(LoginPath)]
    ensures !IsUnauthorized(result) ==>
              && auth.token == old(auth.token) && auth.user == old(auth.user)
              && auth.storage == old(auth.storage) && auth.router.history == old(auth.router.history)
  {
    forwarded := WithCredentials(req, auth.token);
    result := next(forwarded);
    if IsUnauthorized(result) {
      auth.Logout();
      auth.router.Navigate(To(LoginPath));
    }
  }
}

/** cache.interceptor.ts: a URL-keyed store of GET responses that live five
    minutes, and the interceptor that answers eligible GETs from it. The clock
    (`Date.now()`) is the `now` parameter; one instant serves a whole call. */
module HttpCache {
  import opened Common
  import opened Http

  const CacheDuration := 5 * 60 * 1000
  const SkipHeader := "X-Skip-Cache"

  datatype CacheEntry = CacheEntry(response: Response, timestamp: int)

  /** An entry is expired once strictly more than the duration has passed. */
  predicate Expired(e: CacheEntry, now: int) {
    now - e.timestamp > CacheDuration
  }

  /** What `get(url)` answers for a store at time `now`. */
  function Lookup(cache: map<string, CacheEntry>, url: string, now: int): (r: Option<Response>)
    ensures r.Some? <==> url in cache && now - cache[url].timestamp <= CacheDuration
    ensures r.Some? ==> r.value == cache[url].response
  {
    if url in cache && !Expired(cache[url], now) then Some(cache[url].response) else None
  }

  /** The store after `get(url)`: an expired entry for that URL is dropped. */
  function AfterLookup(cache: map<string, CacheEntry>, url: string, now: int): (c: map<string, CacheEntry>)
    ensures c.Keys <= cache.Keys
    ensures forall k :: k in c ==> c[k] == cache[k]
    ensures forall k :: k in cache && k != url ==> k in c
    ensures url in c <==> url in cache && !Expired(cache[url], now)
  {
    if url in cache && Expired(cache[url], now) then cache - {url} else cache
  }

  /** A response stored at `t` is served exactly while at most five minutes
      old, whatever else the store holds. */
  lemma StoredThenLooked(cache: map<string, CacheEntry>, url: string, r: Response, t: int, now: int)
    ensures Lookup(cache[url := CacheEntry(r, t)], url, now) == (if now - t <= CacheDuration then Some(r) else None)
  {
  }

  class HttpCacheService {
    var cache: map<string, CacheEntry>

    constructor ()
      ensures cache == map[]
    {
      cache := map[];
    }

    method Get(url: string, now: int) returns (r: Option<Response>)
      modifies this
      ensures r == Lookup(old(cache), url, now)
      ensures cache == AfterLookup(old(cache), url, now)
    {
      if url !in cache {
        return None;
      }
      var entry := cache[url];
      if Expired(entry, now) {
        cache := cache - {url};
        return None;
      }
      return Some(entry.response);
    }

    /** `set`: `response.clone()` is a value copy here. */
    method Set(url: string, response: Response, now: int)
      modifies this
      ensures cache == old(cache)[url := CacheEntry(response, now)]
    {
      cache := cache[url := CacheEntry(response, now)];
    }

    method Clear()
      modifies this
      ensures cache == map[]
    {
      cache := map[];
    }
  }

  /** Requests the interceptor leaves alone even though they are GETs. */
  predicate SkipsCache(req: Request) {
    || (SkipHeader in req.headers && req.headers[SkipHeader] == "true")
    || Contains(req.url, "/auth/")
    || Contains(req.url, "/transfers")
  }

  /** The eligibility test exactly as written: a GET that is not skipped.
      The store is keyed by `req.url`, which leaves the query parameters out. */
  predicate CacheableAsWritten(req: Request) {
    req.verb == GetMethod && !SkipsCache(req)
  }

  /** The eligibility test with the evidently intended behaviour: a request
      with query parameters is not answered from a URL-keyed entry. */
  predicate Cacheable(req: Request) {
    CacheableAsWritten(req) && req.params == map[]
  }

  /** The store after the `tap` has seen `events`: every `HttpResponse` is
      stored under `url`, nothing else is. */
  function AfterEvents(cache: map<string, CacheEntry>, url: string, events: seq<HttpEvent>, now: int): map<string, CacheEntry>
    decreases |events|
  {
    if events == [] then cache
    else
      var last := events[|events| - 1];
      var before := AfterEvents(cache, url, events[..|events| - 1], now);
      if last.ResponseEvent? then before[url := CacheEntry(last.response, now)] else before
  }

  /** The last `HttpResponse` among the events, if any. */
  function LastResponse(events: seq<HttpEvent>): Option<Response>
    decreases |events|
  {
    if events == [] then None
    else if events[|events| - 1].ResponseEvent? then Some(events[|events| - 1].response)
    else LastResponse(events[..|events| - 1])
  }

  /** Forwarding touches only the URL's entry: it ends up holding the last
      response seen, or stays as it was when no response came. */
  lemma {:induction false} AfterEventsStoresLastResponse(cache: map<string, CacheEntry>, url: string, events: seq<HttpEvent>, now: int)
    ensures var c := AfterEvents(cache, url, events, now);
      && (forall k :: k != url ==> (k in c <==> k in cache) && (k in c ==> c[k] == cache[k]))
      && (LastResponse(events).Some? ==> url in c && c[url] == CacheEntry(LastResponse(events).value, now))
      && (LastResponse(events).None? ==> c == cache)
    decreases |events|
  {
    if events != [] {
      AfterEventsStoresLastResponse(cache, url, events[..|events| - 1], now);
    }
  }

  /** The eligibility test the interceptor applies: as written, or with the
      corrected rule. */
  predicate Eligible(req: Request, corrected: bool) {
    if corrected then Cacheable(req) else CacheableAsWritten(req)
  }

  /** The response the interceptor serves from the store, if it serves one. */
  function Answer(cache: map<string, CacheEntry>, req: Request, now: int, corrected: bool): (r: Option<Response>)
    ensures !Eligible(req, corrected) ==> r.None?
    ensures Eligible(req, corrected) ==> r == Lookup(cache, req.url, now)
  {
    if Eligible(req, corrected) then Lookup(cache, req.url, now) else None
  }

  /** The store once the interceptor has handled `req` and `next` ended with
      `outcome`: untouched for an ineligible request or a hit; on a miss, the
      lookup's clean-up followed by every response event. */
  function StoreAfter(cache: map<string, CacheEntry>, req: Request, now: int, outcome: Outcome, corrected: bool): map<string, CacheEntry> {
    if !Eligible(req, corrected) || Lookup(cache, req.url, now).Some? then cache
    else if outcome.Completed? then AfterEvents(AfterLookup(cache, req.url, now), req.url, outcome.events, now)
    else AfterLookup(cache, req.url, now)
  }

  /** As written, two eligible GETs of one URL that differ only in their
      query share one entry: once the first one's response is stored, the
      second one is answered with it for five minutes instead of being sent. */
  lemma AsWrittenAnswersOtherQuery(cache: map<string, CacheEntry>, r1: Request, r2: Request,
                                   resp: Response, t: int, now: int)
    requires CacheableAsWritten(r1) && CacheableAsWritten(r2)
    requires r1.url == r2.url && r1.params != r2.params
    requires r1.url !in cache
    requires t <= now <= t + CacheDuration
    ensures Answer(StoreAfter(cache, r1, t, Completed([ResponseEvent(resp)]), false), r2, now, false) == Some(resp)
  {
    var events := [ResponseEvent(resp)];
    assert events[..0] == [];
    assert AfterEvents(cache, r1.url, events, t) == cache[r1.url := CacheEntry(resp, t)];
  }

  /** With the corrected test, intercepting one request never changes what
      the store answers another request for the same URL with a different
      query: a request with a query neither reads nor writes the store. */
  lemma CachedAnswerMatchesQuery(cache: map<string, CacheEntry>, r1: Request, r2: Request,
                                 outcome: Outcome, t: int, now: int)
    requires r1.url == r2.url && r1.params != r2.params
    ensures Answer(StoreAfter(cache, r1, t, outcome, true), r2, now, true) == Answer(cache, r2, now, true)
  {
  }

  /** `cacheInterceptor`, as written. `forwarded` says whether `next` was
      called. */
  method Intercept(store: HttpCacheService, req: Request, now: int, next: Request -> Outcome)
      returns (result: Outcome, forwarded: bool)
    modifies store
    ensures !CacheableAsWritten(req) ==> forwarded && result == next(req) && store.cache == old(store.cache)
    ensures CacheableAsWritten(req) && Lookup(old(store.cache), req.url, now).Some? ==>
              && !forwarded
              && result == Completed([ResponseEvent(Lookup(old(store.cache), req.url, now).value)])
              && store.cache == old(store.cache)
    ensures CacheableAsWritten(req) && Lookup(old(store.cache), req.url, now).None? ==>
              && forwarded && result == next(req)
              && store.cache == (if next(req).Completed?
                                 then AfterEvents(AfterLookup(old(store.cache), req.url, now), req.url, next(req).events, now)
                                 else AfterLookup(old(store.cache), req.url, now))
    ensures forwarded <==> Answer(old(store.cache), req, now, false).None?
    ensures store.cache == StoreAfter(old(store.cache), req, now, next(req), false)
  {
    if req.verb != GetMethod {
      return next(req), true;
    }
    if SkipsCache(req) {
      return next(req), true;
    }
    var cached := store.Get(req.url, now);
    if cached.Some? {
      return Completed([ResponseEvent(cached.value)]), false;
    }
    result := next(req);
    forwarded := true;
    if result.Completed? {
      var events := result.events;
      ghost var base := store.cache;
      for i := 0 to |events|
        invariant store.cache == AfterEvents(base, req.url, events[..i], now)
      {
        assert events[..i + 1][..i] == events[..i];
        if events[i].ResponseEvent? {
          store.Set(req.url, events[i].response, now);
        }
      }
      assert events[..|events|] == events;
    }
  }
}

/** retry.interceptor.ts: which requests are retried, the per-error decision
    (give up, or wait and retry) and the bounded driver `retryWhen` runs.
    The waiting itself is not modelled, only the delays chosen. */
module RetryPolicy {
  import opened Common
  import opened Http

  const MaxRetries := 2

  predicate ShouldRetry(req: Request) {
    req.verb == GetMethod || Contains(req.url, "/accounts") || Contains(req.url, "/transfers")
  }

  datatype Decision = Rethrow | RetryAfter(delay: int)

  /** The `concatMap((error, count) => ...)` step; `count` counts the errors
      seen before this one, from 0. */
  function Decide(count: nat, error: HttpError): (d: Decision)
    ensures d.Rethrow? <==> count >= MaxRetries || error.status < 500
    ensures d.RetryAfter? ==> count < MaxRetries && d.delay == 1000 * (count + 1)
  {
    if count >= 2 || error.status < 500 then Rethrow else RetryAfter(1000 * (count + 1))
  }

  /** The delays are linear: 1 s before the first retry, 2 s before the
      second. */
  lemma LinearBackoff(e: HttpError)
    requires e.status >= 500
    ensures Decide(0, e) == RetryAfter(1000) && Decide(1, e) == RetryAfter(2000) && Decide(2, e) == Rethrow
  {
  }

  /** An attempt that `retryWhen` retries: it failed with a server status. */
  predicate Retryable(o: Outcome) {
    o.Errored? && o.error.status >= 500
  }

  /** The subscription made by `retryWhen`, from attempt k on, where
      `attempt(k)` is what the k-th call of `next(req)` yields: the outcome
      propagated and the number of attempts made. */
  function Run(attempt: nat -> Outcome, k: nat): (r: (Outcome, nat))
    requires k <= MaxRetries
    ensures k + 1 <= r.1 <= MaxRetries + 1
    ensures r.0 == attempt(r.1 - 1)
    decreases MaxRetries - k
  {
    match attempt(k)
    case Completed(_) => (attempt(k), k + 1)
    case Errored(e) =>
      match Decide(k, e)
      case Rethrow => (attempt(k), k + 1)
      case RetryAfter(_) => Run(attempt, k + 1)
  }

  /** One call of the interceptor: the outcome seen by the caller, the calls
      of `next` made, and the delays waited between them. */
  method Intercept(req: Request, attempt: nat -> Outcome) returns (result: Outcome, attempts: nat, delays: seq<int>)
    ensures 1 <= attempts <= MaxRetries + 1
    ensures result == attempt(attempts - 1)
    ensures !ShouldRetry(req) ==> attempts == 1
    ensures ShouldRetry(req) ==> (result, attempts) == Run(attempt, 0)
    ensures |delays| == attempts - 1
    ensures forall j :: 0 <= j < |delays| ==> delays[j] == 1000 * (j + 1)
    ensures ShouldRetry(req) ==> forall j :: 0 <= j < attempts - 1 ==> Retryable(attempt(j))
    ensures ShouldRetry(req) && attempts <= MaxRetries ==> !Retryable(result)
  {
    if !ShouldRetry(req) {
      return attempt(0), 1, [];
    }
    attempts := 0;
    delays := [];
    while true
      invariant attempts <= MaxRetries
      invariant |delays| == attempts
      invariant forall j :: 0 <= j < attempts ==> delays[j] == 1000 * (j + 1)
      invariant forall j :: 0 <= j < attempts ==> Retryable(attempt(j))
      invariant Run(attempt, attempts) == Run(attempt, 0)
      decreases MaxRetries - attempts
    {
      var o := attempt(attempts);
      if o.Completed? {
        return o, attempts + 1, delays;
      }
      match Decide(attempts, o.error)
      case Rethrow =>
        return o, attempts + 1, delays;
      case RetryAfter(d) =>
        delays := delays + [d];
        attempts := attempts + 1;
    }
  }

  /** A failure below 500 (including status 0) is never retried. */
  lemma ClientErrorsRunOnce(attempt: nat -> Outcome)
    requires attempt(0).Errored? && attempt(0).error.status < 500
    ensures Run(attempt, 0) == (attempt(0), 1)
  {
  }
}

/** error.interceptor.ts: every failure is turned into one user-facing message
    and, except for a 401, shown as one error notification; the failure is then
    passed on unchanged. */
module ErrorClassifier {
  import opened Common
  import opened Http
  import opened Notifications

  const GenericMessage := "Une erreur inattendue s'est produite"
  const InvalidDataMessage := "Données invalides"
  const ErrorTitle := "Erreur"

  /** The statuses whose message is fixed, whatever the server said. */
  const FixedMessages: map<int, string> := map[
    0 := "Impossible de joindre le serveur. Vérifiez votre connexion internet.",
    401 := "Session expirée. Reconnectez-vous.",
    403 := "Accès refusé. Vous n'avez pas les permissions nécessaires.",
    404 := "Ressource non trouvée",
    422 := "Données de validation incorrectes",
    500 := "Erreur serveur. Veuillez réessayer plus tard.",
    503 := "Service temporairement indisponible"]

  /** The `switch (error.status)`. */
  function MessageFor(e: HttpError): (m: string)
    ensures e.status in FixedMessages ==> m == FixedMessages[e.status]
    ensures e.status == 400 ==> m == OrElse(e.serverMessage, InvalidDataMessage)
    ensures e.status != 400 && e.status !in FixedMessages ==> m == OrElse(e.serverMessage, GenericMessage)
    ensures m != ""
  {
    match e.status
    case 0 => "Impossible de joindre le serveur. Vérifiez votre connexion internet."
    case 400 => OrElse(e.serverMessage, InvalidDataMessage)
    case 401 => "Session expirée. Reconnectez-vous."
    case 403 => "Accès refusé. Vous n'avez pas les permissions nécessaires."
    case 404 => "Ressource non trouvée"
    case 422 => "Données de validation incorrectes"
    case 500 => "Erreur serveur. Veuillez réessayer plus tard."
    case 503 => "Service temporairement indisponible"
    case _ => OrElse(e.serverMessage, GenericMessage)
  }

  /** `errorInterceptor`. */
  method Intercept(notifier: NotificationService, req: Request, next: Request -> Outcome) returns (result: Outcome)
    modifies notifier
    ensures result == next(req)
    ensures result.Errored? && result.error.status != 401 ==>
              && notifier.issued == old(notifier.issued) + 1
              && notifier.notifications == old(notifier.notifications)
                   + [Stamped(Draft(Error, ErrorTitle, MessageFor(result.error), None), notifier.idSource(old(notifier.issued)))]
    ensures !(result.Errored? && result.error.status != 401) ==>
              notifier.notifications == old(notifier.notifications) && notifier.issued == old(notifier.issued)
  {
    result := next(req);
    if result.Errored? {
      var message := MessageFor(result.error);
      if result.error.status != 401 {
        notifier.NotifyError(ErrorTitle, message, None);
      }
    }
  }
}
