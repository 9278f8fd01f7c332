/**
 * pkg/webserver/handlers_nginx.go: the handlers Nginx's auth_request
 * calls.  They answer with headers only.  The cache behind each one is a
 * KeyCache.Store.  The lookup function the handler would call on a miss
 * is foreign: its result is passed in as `user`/`err`, which the handler
 * uses only on a miss.
 */
module HandlersNginx {
  import opened Wrappers
  import opened Text
  import opened Http
  import opened UserInfo
  import opened KeyCache
  import opened Functions
  import opened Start

  /** The cached item is usable: present with non-nil data. */
  predicate Hit(cached: Option<Item>)
  {
    cached.Some? && cached.value.data.Some?
  }

  /** The user whose fields are echoed: the cached one on a hit, else the fetched one, else DefaultUser. */
  function Shown(cached: Option<Item>, user: Option<UserInfo>): UserInfo
  {
    if Hit(cached) then cached.value.data.value else user.GetOr(DefaultUser())
  }

  /**
   * The seconds reported in Age at clock reading `now`: measured from the
   * item's time on a hit, from the reading `start` taken when the request
   * began otherwise, so a miss reports the time the fetch took.
   */
  function AgeOf(cached: Option<Item>, start: int, now: int): (age: int)
    ensures Hit(cached) ==> age == now - cached.value.time
    ensures !Hit(cached) ==> age == now - start
  {
    if Hit(cached) then now - cached.value.time else now - start
  }

  /**
   * The 401/200 rule goes to noKeyReply: the shown user is the default one
   * and there was no error, or the error was not-found.  A hit carries no
   * error.
   */
  predicate UsesNoKeyReply(cached: Option<Item>, user: Option<UserInfo>, err: Option<Error>)
  {
    Shown(cached, user).userID == DefaultUserID
    && (Hit(cached) || err.None? || err == Some(ErrNoUser))
  }

  /** The headers echoing a user's fields and the Age. */
  function UserHeaders(h: map<string, string>, u: UserInfo, age: int): (r: map<string, string>)
    ensures r.Keys == h.Keys + {"X-API-Key", "X-Environment", "X-Username", "X-UserID", "Age"}
    ensures r["X-API-Key"] == u.apiKey && r["X-Environment"] == u.environment
    ensures r["X-Username"] == u.username && r["X-UserID"] == u.userID && r["Age"] == Itoa(age)
    ensures forall k :: k in h && k !in {"X-API-Key", "X-Environment", "X-Username", "X-UserID", "Age"} ==> r[k] == h[k]
  {
    h["X-API-Key" := u.apiKey]["X-Environment" := u.environment]["X-Username" := u.username]
     ["X-UserID" := u.userID]["Age" := Itoa(age)]
  }

  /** The headers noKeyReply writes for the request's key: masked, in full, and its length. */
  function KeyReplyHeaders(h: map<string, string>, key: string): (r: map<string, string>)
    ensures r.Keys == h.Keys + {"X-Key", "X-API-Key", "X-Length"}
    ensures r["X-Key"] == MaskAPIKey(key).0 && r["X-API-Key"] == key && r["X-Length"] == Itoa(|key|)
    ensures forall k :: k in h && k !in {"X-Key", "X-API-Key", "X-Length"} ==> r[k] == h[k]
  {
    var (masked, length) := MaskAPIKey(key);
    h["X-Key" := masked]["X-API-Key" := key]["X-Length" := Itoa(length)]
  }

  /** The status noKeyReply writes: 401 iff the original URI requires a key. */
  function NoKeyStatus(paths: seq<string>, origURI: string): (code: int)
    ensures code == StatusUnauthorized <==> !NoAuth(paths, origURI)
    ensures code == StatusOK <==> NoAuth(paths, origURI)
  {
    if NoAuth(paths, origURI) then StatusOK else StatusUnauthorized
  }

  /** The status handleGetAny ends with. */
  function GetAnyStatus(paths: seq<string>, origURI: string, cached: Option<Item>, user: Option<UserInfo>,
                        err: Option<Error>): int
  {
    if UsesNoKeyReply(cached, user, err) then NoKeyStatus(paths, origURI) else StatusOK
  }

  /**
   * The cache after handleGetAny: unchanged on a hit; on a miss the fetched
   * user is saved volatile (prune) when not found, durable when found, and
   * not at all on any other error.
   */
  function Cached(entries: map<string, Item>, key: string, cached: Option<Item>, user: Option<UserInfo>,
                  err: Option<Error>, now: int): (r: map<string, Item>)
    ensures Hit(cached) || (err.Some? && err != Some(ErrNoUser)) ==> r == entries
    ensures !Hit(cached) && err.None? ==> r == entries[key := Item(user, now, false)]
    ensures !Hit(cached) && err == Some(ErrNoUser) ==> r == entries[key := Item(user, now, true)]
  {
    if Hit(cached) || (err.Some? && err != Some(ErrNoUser)) then entries
    else entries[key := Item(user, now, err.Some?)]
  }

  /** The headers handleGetAny ends with: the shown user's echo, then noKeyReply's when it answers. */
  function GetAnyHeaders(h: map<string, string>, routeKey: string, cached: Option<Item>, user: Option<UserInfo>,
                         err: Option<Error>, start: int, now: int): (r: map<string, string>)
    ensures {"X-API-Key", "X-Environment", "X-Username", "X-UserID", "Age"} <= r.Keys
    ensures UsesNoKeyReply(cached, user, err) ==> "X-Key" in r && "X-Length" in r
    ensures var u := Shown(cached, user);
            && r["X-Environment"] == u.environment && r["X-Username"] == u.username && r["X-UserID"] == u.userID
            && r["Age"] == Itoa(AgeOf(cached, start, now))
            && r["X-API-Key"] == (if UsesNoKeyReply(cached, user, err) then routeKey else u.apiKey)
            && (UsesNoKeyReply(cached, user, err) ==>
                  r["X-Key"] == MaskAPIKey(routeKey).0 && r["X-Length"] == Itoa(|routeKey|))
            && (!UsesNoKeyReply(cached, user, err) ==>
                  r.Keys == h.Keys + {"X-API-Key", "X-Environment", "X-Username", "X-UserID", "Age"})
  {
    var echoed := UserHeaders(h, Shown(cached, user), AgeOf(cached, start, now));
    if UsesNoKeyReply(cached, user, err) then KeyReplyHeaders(echoed, routeKey) else echoed
  }

  /**
   * A database error on a miss never gets the 401 path: it answers 200
   * with the default user's values, and nothing is cached.
   */
  lemma DbErrorAnswersDefault(paths: seq<string>, origURI: string, cached: Option<Item>, err: Error)
    requires !Hit(cached) && err != ErrNoUser
    ensures !UsesNoKeyReply(cached, None, Some(err))
    ensures GetAnyStatus(paths, origURI, cached, None, Some(err)) == StatusOK
    ensures Shown(cached, None) == DefaultUser()
  {
  }

  /** A real user, cached or fetched without error, is always answered 200. */
  lemma KnownUserAnswersOK(paths: seq<string>, origURI: string, cached: Option<Item>, user: Option<UserInfo>,
                           err: Option<Error>)
    requires Shown(cached, user).userID != DefaultUserID
    ensures GetAnyStatus(paths, origURI, cached, user, err) == StatusOK
  {
  }

  /** The header writes echoing the chosen user and the Age. */
  method EchoUser(resp: Response, u: UserInfo, age: int)
    modifies resp
    ensures resp.header == UserHeaders(old(resp.header), u, age)
    ensures resp.status == old(resp.status) && resp.body == old(resp.body)
  {
    resp.Set("X-API-Key", u.apiKey);
    resp.Set("X-Environment", u.environment);
    resp.Set("X-Username", u.username);
    resp.Set("X-UserID", u.userID);
    resp.Set("Age", Itoa(age));
  }

  /**
   * noKeyReply: X-Key, X-API-Key and X-Length describe the route's key;
   * then 401 when the original URI requires a key, 200 when it is a
   * no-auth path.
   */
  method NoKeyReply(paths: PathLoop, req: Request, resp: Response)
    modifies resp
    ensures resp.header == KeyReplyHeaders(old(resp.header), Get(req.vars, ApiKeyVar))
    ensures resp.status == Written(old(resp.status), NoKeyStatus(paths.noAuthPaths, Get(req.header, "X-Original-URI")))
    ensures resp.body == old(resp.body)
  {
    var key := Get(req.vars, ApiKeyVar);
    var masked := MaskAPIKey(key);
    resp.Set("X-Key", masked.0);
    resp.Set("X-API-Key", key);
    resp.Set("X-Length", Itoa(masked.1));
    var required := paths.RequiresAPIKey(Get(req.header, "X-Original-URI"));
    if required {
      resp.WriteHeader(StatusUnauthorized);
    } else {
      resp.WriteHeader(StatusOK);
    }
  }

  /**
   * handleGetAny.  A hit is served from the cache: nothing is fetched or
   * saved and Age counts from the item's time.  On a miss the fetched user
   * is saved volatile (prune) when not found, durable when found, and not
   * at all on any other error.  The chosen user's fields are echoed; the
   * default user stands in when there is none.  The answer is
   * noKeyReply's when UsesNoKeyReply holds, 200 otherwise.
   *
   * The lookups behind `user`/`err` return a user whenever they report no
   * error or not-found; the requires states that.
   */
  method HandleGetAny(store: Store, paths: PathLoop, req: Request, resp: Response, key: string,
                      cached: Option<Item>, user: Option<UserInfo>, err: Option<Error>, start: int, now: int)
    requires err.None? || err == Some(ErrNoUser) ==> user.Some?
    modifies store, resp
    ensures Hit(cached) ==> store.entries == old(store.entries)
    ensures !Hit(cached) && err == Some(ErrNoUser) ==> store.entries == old(store.entries)[key := Item(user, now, true)]
    ensures !Hit(cached) && err.None? ==> store.entries == old(store.entries)[key := Item(user, now, false)]
    ensures !Hit(cached) && err.Some? && err != Some(ErrNoUser) ==> store.entries == old(store.entries)
    ensures resp.header == GetAnyHeaders(old(resp.header), Get(req.vars, ApiKeyVar), cached, user, err, start, now)
    ensures resp.status ==
              Written(old(resp.status),
                      GetAnyStatus(paths.noAuthPaths, Get(req.header, "X-Original-URI"), cached, user, err))
    ensures resp.body == old(resp.body)
  {
    var when := start;
    var found: Option<UserInfo> := None;
    var e: Option<Error> := None;
    if cached.Some? && cached.value.data.Some? {
      found := cached.value.data;
      when := cached.value.time;
    } else {
      found, e := user, err;
      SaveFetched(store, key, user, err, now);
    }
    var u := if found.None? then DefaultUser() else found.value;
    assert u == Shown(cached, user) && now - when == AgeOf(cached, start, now);
    Reply(paths, req, resp, u, e, now - when);
  }

  /**
   * The answer of handleGetAny once the user `u` is chosen: its fields are
   * echoed, then noKeyReply for the default user with no error or
   * not-found, 200 otherwise.
   */
  method Reply(paths: PathLoop, req: Request, resp: Response, u: UserInfo, e: Option<Error>, age: int)
    modifies resp
    ensures var h := UserHeaders(old(resp.header), u, age);
            var noKey := u.userID == DefaultUserID && (e.None? || e == Some(ErrNoUser));
            && resp.header == (if noKey then KeyReplyHeaders(h, Get(req.vars, ApiKeyVar)) else h)
            && resp.status == Written(old(resp.status),
                                      if noKey then NoKeyStatus(paths.noAuthPaths, Get(req.header, "X-Original-URI"))
                                      else StatusOK)
    ensures resp.body == old(resp.body)
  {
    EchoUser(resp, u, age);
    if u.userID == DefaultUserID && (e.None? || e == Some(ErrNoUser)) {
      NoKeyReply(paths, req, resp);
    } else {
      resp.WriteHeader(StatusOK);
    }
  }

  /** The miss path: not-found is saved volatile (prune), success durable, another error not at all. */
  method SaveFetched(store: Store, key: string, user: Option<UserInfo>, err: Option<Error>, now: int)
    modifies store
    ensures err == Some(ErrNoUser) ==> store.entries == old(store.entries)[key := Item(user, now, true)]
    ensures err.None? ==> store.entries == old(store.entries)[key := Item(user, now, false)]
    ensures err.Some? && err != Some(ErrNoUser) ==> store.entries == old(store.entries)
  {
    if err == Some(ErrNoUser) {
      store.Save(key, user, true, now);
    } else if err.None? {
      store.Save(key, user, false, now);
    }
  }

  /** handleGetKey: the users cache, keyed by the route's API key; the rest is handleGetAny's. */
  method HandleGetKey(users: Store, paths: PathLoop, req: Request, resp: Response,
                      user: Option<UserInfo>, err: Option<Error>, start: int, now: int)
    requires err.None? || err == Some(ErrNoUser) ==> user.Some?
    modifies users, resp
    ensures var key := Get(req.vars, ApiKeyVar);
            var cached := KeyCache.Lookup(old(users.entries), key);
            && users.entries == Cached(old(users.entries), key, cached, user, err, now)
            && resp.header == GetAnyHeaders(old(resp.header), key, cached, user, err, start, now)
            && resp.status == Written(old(resp.status),
                                      GetAnyStatus(paths.noAuthPaths, Get(req.header, "X-Original-URI"), cached, user, err))
            && resp.body == old(resp.body)
  {
    var key := Get(req.vars, ApiKeyVar);
    var cached := users.Get(key);
    HandleGetAny(users, paths, req, resp, key, cached, user, err, start, now);
  }

  /** handleServer: the servers cache, keyed by the X-Server header; the rest is handleGetAny's. */
  method HandleServer(servers: Store, paths: PathLoop, req: Request, resp: Response,
                      user: Option<UserInfo>, err: Option<Error>, start: int, now: int)
    requires err.None? || err == Some(ErrNoUser) ==> user.Some?
    modifies servers, resp
    ensures var key := Get(req.header, "X-Server");
            var cached := KeyCache.Lookup(old(servers.entries), key);
            && servers.entries == Cached(old(servers.entries), key, cached, user, err, now)
            && resp.header == GetAnyHeaders(old(resp.header), Get(req.vars, ApiKeyVar), cached, user, err, start, now)
            && resp.status == Written(old(resp.status),
                                      GetAnyStatus(paths.noAuthPaths, Get(req.header, "X-Original-URI"), cached, user, err))
            && resp.body == old(resp.body)
  {
    var key := Get(req.header, "X-Server");
    var cached := servers.Get(key);
    HandleGetAny(servers, paths, req, resp, key, cached, user, err, start, now);
  }
}
