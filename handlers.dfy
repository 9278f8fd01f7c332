/**
 * pkg/webserver/handlers.go: an older snapshot of the handlers, written
 * against the older cache API (Get, Save without options, Delete
 * returning the item), modelled as KeyCache.Store with every save
 * durable.  A panic in a handler (a nil dereference) ends it at that
 * point: the `panicked` result.
 */
module Handlers {
  import opened Wrappers
  import opened Text
  import opened Http
  import opened UserInfo
  import opened KeyCache
  import opened Functions
  import opened HandlersNginx
  import opened HandlersDelete

  /** The body the older noKeyReply writes. */
  const NoKeyBody := "invalid or no key provided"

  /**
   * The older 401 rule, with Go's precedence: (the shown user is the
   * default one and there was no error) or the error is not-found.  A hit
   * carries no error.
   */
  predicate UsesNoKeyReply(cached: Option<Item>, user: Option<UserInfo>, err: Option<Error>)
  {
    (Shown(cached, user).userID == DefaultUserID && (Hit(cached) || err.None?))
    || (!Hit(cached) && err == Some(ErrNoUser))
  }

  /** A not-found answer always takes the 401 path, whatever user came with it. */
  lemma NotFoundIsUnauthorized(cached: Option<Item>, user: Option<UserInfo>)
    requires !Hit(cached)
    ensures UsesNoKeyReply(cached, user, Some(ErrNoUser))
  {
  }

  /** The headers the older noKeyReply writes: the masked key and its length (no X-API-Key). */
  function KeyReplyHeaders(h: map<string, string>, key: string): (r: map<string, string>)
    ensures r.Keys == h.Keys + {"X-Key", "X-Length"}
    ensures r["X-Key"] == MaskAPIKey(key).0 && r["X-Length"] == Itoa(|key|)
  {
    h["X-Key" := MaskAPIKey(key).0]["X-Length" := Itoa(MaskAPIKey(key).1)]
  }

  /** The older noKeyReply: the masked key, then always 401 and the fixed body. */
  method NoKeyReply(req: Request, resp: Response)
    modifies resp
    ensures resp.header == KeyReplyHeaders(old(resp.header), Get(req.vars, ApiKeyVar))
    ensures resp.status == Written(old(resp.status), StatusUnauthorized)
    ensures resp.body == old(resp.body) + NoKeyBody
  {
    var masked := MaskAPIKey(Get(req.vars, ApiKeyVar));
    resp.Set("X-Key", masked.0);
    resp.Set("X-Length", Itoa(masked.1));
    resp.WriteHeader(StatusUnauthorized);
    resp.Write(NoKeyBody);
  }

  /** The cache after the older handleGetAny: the fetched user is saved, durable, on a miss with no error or not-found. */
  function SavedOnMiss(entries: map<string, Item>, key: string, cached: Option<Item>, user: Option<UserInfo>,
                       err: Option<Error>, now: int): (r: map<string, Item>)
    ensures Hit(cached) || (err.Some? && err != Some(ErrNoUser)) ==> r == entries
    ensures !Hit(cached) && (err.None? || err == Some(ErrNoUser)) ==> r == entries[key := Item(user, now, false)]
  {
    if Hit(cached) || (err.Some? && err != Some(ErrNoUser)) then entries else entries[key := Item(user, now, false)]
  }

  /** The headers the older handleGetAny ends with, when it does not panic. */
  function OlderHeaders(h: map<string, string>, routeKey: string, cached: Option<Item>, user: Option<UserInfo>,
                        err: Option<Error>, start: int, now: int): (r: map<string, string>)
    ensures {"X-API-Key", "X-Environment", "X-Username", "X-UserID", "Age"} <= r.Keys
    ensures UsesNoKeyReply(cached, user, err) ==> "X-Key" in r && "X-Length" in r
    ensures var u := Shown(cached, user);
            && r["X-API-Key"] == u.apiKey && r["X-Environment"] == u.environment
            && r["X-Username"] == u.username && r["X-UserID"] == u.userID
            && r["Age"] == Itoa(AgeOf(cached, start, now))
            && (UsesNoKeyReply(cached, user, err) ==>
                  r["X-Key"] == MaskAPIKey(routeKey).0 && r["X-Length"] == Itoa(|routeKey|))
            && (!UsesNoKeyReply(cached, user, err) ==>
                  r.Keys == h.Keys + {"X-API-Key", "X-Environment", "X-Username", "X-UserID", "Age"})
  {
    var echoed := UserHeaders(h, Shown(cached, user), AgeOf(cached, start, now));
    if UsesNoKeyReply(cached, user, err) then KeyReplyHeaders(echoed, routeKey) else echoed
  }

  /** The status the older handleGetAny answers with: 401 on the older rule, 200 otherwise. */
  function OlderStatus(cached: Option<Item>, user: Option<UserInfo>, err: Option<Error>): (code: int)
    ensures code == StatusUnauthorized <==> UsesNoKeyReply(cached, user, err)
    ensures code == StatusOK <==> !UsesNoKeyReply(cached, user, err)
  {
    if UsesNoKeyReply(cached, user, err) then StatusUnauthorized else StatusOK
  }

  /** The body text the older handleGetAny appends: the older noKeyReply's, or nothing. */
  function OlderBody(cached: Option<Item>, user: Option<UserInfo>, err: Option<Error>): string
  {
    if UsesNoKeyReply(cached, user, err) then NoKeyBody else ""
  }

  /**
   * The older handleGetAny.  A hit is served from the cache with no fetch
   * and no save.  On a miss the fetched user is saved when the error is
   * nil or not-found and not otherwise.  Any other error leaves the user
   * nil, and the first header write dereferences it: the handler panics
   * with the response untouched.  Otherwise the user is echoed, Age counts
   * from the item's time on a hit and from `start` on a miss, and the
   * older 401 rule decides between noKeyReply and 200.
   */
  method HandleGetAny(store: Store, req: Request, resp: Response, key: string,
                      cached: Option<Item>, user: Option<UserInfo>, err: Option<Error>, start: int, now: int)
    returns (panicked: bool)
    modifies store, resp
    ensures panicked <==> !Hit(cached) && user.None?
    ensures store.entries == SavedOnMiss(old(store.entries), key, cached, user, err, now)
    ensures panicked ==> resp.header == old(resp.header) && resp.status == old(resp.status) && resp.body == old(resp.body)
    ensures !panicked ==>
              && resp.header == OlderHeaders(old(resp.header), Get(req.vars, ApiKeyVar), cached, user, err, start, now)
              && resp.status == Written(old(resp.status), OlderStatus(cached, user, err))
              && resp.body == old(resp.body) + OlderBody(cached, user, err)
  {
    var when := start;
    var found: Option<UserInfo> := None;
    var e: Option<Error> := None;
    if cached.Some? && cached.value.data.Some? {
      found := cached.value.data;
      when := cached.value.time;
    } else {
      found, e := user, err;
      SaveFetched(store, key, user, err, now);
    }
    if found.None? {
      return true;
    }
    var u := found.value;
    assert u == Shown(cached, user) && now - when == AgeOf(cached, start, now);
    Reply(req, resp, u, e, now - when);
    return false;
  }

  /**
   * The answer of the older handleGetAny once the user `u` is found: its
   * fields are echoed, then the older noKeyReply when (the user is the
   * default one and there was no error) or the error is not-found, 200
   * otherwise.
   */
  method Reply(req: Request, resp: Response, u: UserInfo, e: Option<Error>, age: int)
    modifies resp
    ensures var h := UserHeaders(old(resp.header), u, age);
            var noKey := (u.userID == DefaultUserID && e.None?) || e == Some(ErrNoUser);
            && (noKey ==> resp.header == KeyReplyHeaders(h, Get(req.vars, ApiKeyVar))
                          && resp.status == Written(old(resp.status), StatusUnauthorized)
                          && resp.body == old(resp.body) + NoKeyBody)
            && (!noKey ==> resp.header == h && resp.status == Written(old(resp.status), StatusOK)
                           && resp.body == old(resp.body))
  {
    EchoUser(resp, u, age);
    if (u.userID == DefaultUserID && e.None?) || e == Some(ErrNoUser) {
      NoKeyReply(req, resp);
    } else {
      resp.WriteHeader(StatusOK);
    }
  }

  /** The older miss path: the fetched user is saved when the error is nil or not-found. */
  method SaveFetched(store: Store, key: string, user: Option<UserInfo>, err: Option<Error>, now: int)
    modifies store
    ensures err.Some? && err != Some(ErrNoUser) ==> store.entries == old(store.entries)
    ensures err.None? || err == Some(ErrNoUser) ==> store.entries == old(store.entries)[key := Item(user, now, false)]
  {
    if err.None? || err == Some(ErrNoUser) {
      store.Save(key, user, false, now);
    }
  }

  /** The older handleGetKey: the users cache, keyed by the route's API key; the rest is the older handleGetAny's. */
  method HandleGetKey(users: Store, req: Request, resp: Response, user: Option<UserInfo>, err: Option<Error>,
                      start: int, now: int)
    returns (panicked: bool)
    modifies users, resp
    ensures var key := Get(req.vars, ApiKeyVar);
            var cached := KeyCache.Lookup(old(users.entries), key);
            && (panicked <==> !Hit(cached) && user.None?)
            && users.entries == SavedOnMiss(old(users.entries), key, cached, user, err, now)
            && (panicked ==> resp.header == old(resp.header) && resp.status == old(resp.status)
                             && resp.body == old(resp.body))
            && (!panicked ==>
                  && resp.header == OlderHeaders(old(resp.header), key, cached, user, err, start, now)
                  && resp.status == Written(old(resp.status), OlderStatus(cached, user, err))
                  && resp.body == old(resp.body) + OlderBody(cached, user, err))
  {
    var key := Get(req.vars, ApiKeyVar);
    var cached := users.Get(key);
    panicked := HandleGetAny(users, req, resp, key, cached, user, err, start, now);
  }

  /** The older handleServer: the servers cache, keyed by the X-Server header; the rest is the older handleGetAny's. */
  method HandleServer(servers: Store, req: Request, resp: Response, user: Option<UserInfo>, err: Option<Error>,
                      start: int, now: int)
    returns (panicked: bool)
    modifies servers, resp
    ensures var key := Get(req.header, "X-Server");
            var cached := KeyCache.Lookup(old(servers.entries), key);
            && (panicked <==> !Hit(cached) && user.None?)
            && servers.entries == SavedOnMiss(old(servers.entries), key, cached, user, err, now)
            && (panicked ==> resp.header == old(resp.header) && resp.status == old(resp.status)
                             && resp.body == old(resp.body))
            && (!panicked ==>
                  && resp.header == OlderHeaders(old(resp.header), Get(req.vars, ApiKeyVar), cached, user, err, start, now)
                  && resp.status == Written(old(resp.status), OlderStatus(cached, user, err))
                  && resp.body == old(resp.body) + OlderBody(cached, user, err))
  {
    var key := Get(req.header, "X-Server");
    var cached := servers.Get(key);
    panicked := HandleGetAny(servers, req, resp, key, cached, user, err, start, now);
  }

  /**
   * handleDelSrv: the X-Server key is deleted.  A non-default user it held
   * is named in the headers; the environment is "deleted", Age is "1" and
   * the status 200.  Encoding the deleted item's data then dereferences a
   * nil item when the key was absent: the handler panics after the status
   * was written.
   */
  method HandleDelSrv(servers: Store, req: Request, resp: Response) returns (panicked: bool)
    modifies servers, resp
    ensures var key := Get(req.header, "X-Server");
            var item := KeyCache.Lookup(old(servers.entries), key);
            servers.entries == old(servers.entries) - {key}
            && (panicked <==> item.None?)
            && resp.header == DeletedHeaders(old(resp.header), LastNamed([item]), "1")
    ensures resp.status == Written(old(resp.status), StatusOK)
  {
    var user := DefaultUser();
    var item := servers.Delete(Get(req.header, "X-Server"));
    if item.Some? && item.value.data.Some? {
      user := item.value.data.value;
    }
    assert [item][..0] == [];
    NameUser(resp, user);
    resp.Set("X-Environment", "deleted");
    resp.Set("Content-Type", "application/json");
    resp.Set("Age", "1");
    resp.WriteHeader(StatusOK);
    panicked := item.None?;
  }

  /** What the older handleDelKey gets for key i: its item once the earlier keys are deleted. */
  function DeletedItem(entries: map<string, Item>, keys: seq<string>, i: int): (item: Option<Item>)
    requires 0 <= i < |keys|
    ensures keys[i] in keys[..i] ==> item.None?
    ensures keys[i] !in keys[..i] ==> item == KeyCache.Lookup(entries, keys[i])
  {
    KeyCache.Lookup(entries - KeySet(keys[..i]), keys[i])
  }

  /**
   * The older handleDelKey: each key is deleted at once, and its slot
   * holds what the delete returned, so a repeated key gets nothing the
   * second time.  The headers name the last non-default user found,
   * Age is the number of keys, the status is 200, and every listed key is
   * gone.
   */
  method HandleDelKey(users: Store, req: Request, resp: Response) returns (infos: seq<Option<Item>>)
    modifies users, resp
    ensures var keys := Split(Get(req.header, "X-API-Keys"), ',');
            |infos| == |keys|
            && (forall i :: 0 <= i < |keys| ==> infos[i] == DeletedItem(old(users.entries), keys, i))
            && users.entries == old(users.entries) - KeySet(keys)
            && resp.header == DeletedHeaders(old(resp.header), LastNamed(infos), Itoa(|keys|))
    ensures resp.status == Written(old(resp.status), StatusOK)
  {
    var keys := Split(Get(req.header, "X-API-Keys"), ',');
    infos := DeleteEach(users, resp, keys);
    resp.Set("X-Environment", "deleted");
    resp.Set("Content-Type", "application/json");
    resp.Set("Age", Itoa(|infos|));
    resp.WriteHeader(StatusOK);
  }

  /** One step of the older handleDelKey's loop: key idx is deleted and its slot holds what the delete returned. */
  method DeleteSlot(users: Store, slots: array<Option<Item>>, keys: seq<string>, idx: int,
                    ghost entries: map<string, Item>)
    returns (got: Option<Item>)
    requires slots.Length == |keys| && 0 <= idx < |keys|
    requires users.entries == entries - KeySet(keys[..idx])
    modifies users, slots
    ensures users.entries == entries - KeySet(keys[..idx + 1])
    ensures got == slots[idx] == DeletedItem(entries, keys, idx)
    ensures slots[..] == old(slots[..])[idx := got]
  {
    got := users.Delete(keys[idx]);
    assert KeySet(keys[..idx + 1]) == KeySet(keys[..idx]) + {keys[idx]};
    slots[idx] := got;
  }

  /** The loop of the older handleDelKey: delete each key in turn, keeping what each delete returned. */
  method DeleteEach(users: Store, resp: Response, keys: seq<string>) returns (infos: seq<Option<Item>>)
    modifies users, resp
    ensures |infos| == |keys|
    ensures forall i :: 0 <= i < |keys| ==> infos[i] == DeletedItem(old(users.entries), keys, i)
    ensures users.entries == old(users.entries) - KeySet(keys)
    ensures resp.header == NamedHeaders(old(resp.header), LastNamed(infos))
    ensures resp.status == old(resp.status) && resp.body == old(resp.body)
  {
    var slots := new Option<Item>[|keys|](_ => None);
    var user := DefaultUser();
    for idx := 0 to |keys|
      invariant resp.status == old(resp.status) && resp.body == old(resp.body)
      invariant users.entries == old(users.entries) - KeySet(keys[..idx])
      invariant forall j :: 0 <= j < idx ==> slots[j] == DeletedItem(old(users.entries), keys, j)
      invariant user == Latest(slots[..idx])
      invariant resp.header == NamedHeaders(old(resp.header), LastNamed(slots[..idx]))
    {
      ghost var before := slots[..];
      var got := DeleteSlot(users, slots, keys, idx, old(users.entries));
      assert slots[..idx] == before[..idx];
      assert slots[..idx + 1][..idx] == slots[..idx];
      ScanStep(old(resp.header), slots[..], idx);
      assert slots[..][..idx] == slots[..idx] && slots[..][..idx + 1] == slots[..idx + 1];
      if got.Some? && got.value.data.Some? {
        user := got.value.data.value;
      }
      NameUser(resp, user);
    }
    assert slots[..|keys|] == slots[..];
    assert keys[..|keys|] == keys;
    infos := slots[..];
  }
}
