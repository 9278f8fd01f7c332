/**
 * pkg/cache/cache.go and pkg/cache/processor.go: the cache object.  The
 * request loop that owns the map is run here as sequential calls: each
 * request handed to the loop is one call of Process, and the loop over a
 * sequence of requests is ProcessRequests.  `running` stands for the
 * request and response channels being non-nil (the loop is up).
 */
module Cache {
  import opened Wrappers
  import opened Processor
  import UserInfo

  /** "initializing userinfo: %w" around the userinfo error. */
  datatype CacheError = Initializing(cause: UserInfo.Error)

  class Cache<T> {
    /** The user-info source; its connection is opened by New and reopened by Start. */
    const ui: UserInfo.UI
    /** c.cache: the store the loop owns (a nil map reads as empty). */
    var store: Store<T>
    /** c.req != nil: the loop is running and accepts requests. */
    var running: bool

    /** The user-info source always holds a handle: New opened it and Open never drops it. */
    ghost predicate Valid()
      reads this, ui
    {
      ui.dbase.Some?
    }

    /** &Cache{ui: ui}: no store, no loop. */
    constructor (ui: UserInfo.UI)
      ensures this.ui == ui && store == map[] && !running
    {
      this.ui := ui;
      store := map[];
      running := false;
    }

    /** start: a fresh, empty store and a running loop. */
    method StartLoop()
      modifies this
      ensures store == map[] && running
    {
      store := map[];
      running := true;
    }

    /**
     * stop: closes the request channel, waits for the loop to end and nils
     * the channels; the store is kept.  Closing the nil channel of a loop
     * that is not running panics in the source.
     */
    method StopLoop() returns (panicked: bool)
      modifies this
      ensures panicked <==> !old(running)
      ensures !running && store == old(store)
    {
      if !running {
        return true;
      }
      running := false;
      return false;
    }

    /** clean: removes every entry, one key at a time, then drops the map. */
    method Clean()
      modifies this
      ensures store == map[] && running == old(running)
    {
      ghost var removed: set<string> := {};
      while store != map[]
        invariant running == old(running)
        invariant removed <= old(store).Keys && store == old(store) - removed
        decreases store.Keys
      {
        var k :| k in store;
        store := store - {k};
        removed := removed + {k};
      }
      assert forall k :: k in old(store) ==> k !in store;
      assert removed == old(store).Keys;
      store := map[];
    }

    /** One iteration of processRequests: the request is applied to the store and answered. */
    method Process(r: Req<T>, now: int) returns (res: Res<T>)
      requires running
      modifies this
      ensures (store, res) == Step(old(store), r, now)
      ensures running
    {
      if r.data.Some? {
        var present := r.key in store;
        store := store[r.key := Item(r.data.value, now)];
        res := Res(Some(store[r.key]), present);
      } else if r.del {
        var present := r.key in store;
        store := store - {r.key};
        res := Res(None, present);
      } else {
        var present := r.key in store;
        var item := if present then Some(store[r.key]) else None;
        res := Res(item, present);
      }
    }

    /**
     * processRequests over the requests `reqs`, request i being processed
     * at clock reading `clock[i]`: exactly one response per request, in
     * order, and the store is what Run says.
     */
    method ProcessRequests(reqs: seq<Req<T>>, clock: seq<int>) returns (responses: seq<Res<T>>)
      requires running && |clock| == |reqs|
      modifies this
      ensures (store, responses) == Run(old(store), reqs, clock)
      ensures |responses| == |reqs| && running
    {
      responses := [];
      var i := 0;
      while i < |reqs|
        invariant 0 <= i <= |reqs| && running
        invariant Run(old(store), reqs[..i], clock[..i]) == (store, responses)
      {
        RunSnoc(old(store), reqs[..i], clock[..i], reqs[i], clock[i]);
        assert reqs[..i + 1] == reqs[..i] + [reqs[i]];
        assert clock[..i + 1] == clock[..i] + [clock[i]];
        var res := Process(reqs[i], clock[i]);
        responses := responses + [res];
        i := i + 1;
      }
      assert reqs[..i] == reqs && clock[..i] == clock;
      RunLength(old(store), reqs, clock);
    }

    /**
     * Start: a running cache is left alone and Start reports no error.  A
     * stopped one reopens the database; if that fails the error is wrapped
     * and the cache stays stopped, otherwise the old entries are dropped and
     * the loop resumes with an empty store, whatever Stop kept.
     */
    method Start(driverOk: bool) returns (err: Option<CacheError>)
      requires Valid()
      modifies this, ui
      ensures Valid()
      ensures old(running) ==> err.None? && running && store == old(store) && ui.dbase == old(ui.dbase)
      ensures !old(running) && driverOk ==>
                err.None? && running && store == map[]
                && ui.dbase == Some(UserInfo.DB(UserInfo.DSN(ui.config), false))
      ensures !old(running) && !driverOk ==>
                err == Some(Initializing(UserInfo.Connecting(ui.config.host)))
                && !running && store == old(store)
    {
      if running {
        return None;
      }
      var e := ui.Open(driverOk);
      if e.Some? {
        return Some(Initializing(e.value));
      }
      Clean();
      StartLoop();
      return None;
    }

    /**
     * Stop: closes the database, then stops the loop; only `clean` empties
     * the store.  The loop is stopped afterwards in every case; stopping a
     * cache that is not running panics at the channel close.
     */
    method Stop(clean: bool) returns (panicked: bool)
      requires Valid()
      modifies this, ui
      ensures Valid()
      ensures panicked <==> !old(running)
      ensures !running
      ensures ui.dbase == Some(old(ui.dbase).value.(closed := true))
      ensures store == if clean && !panicked then map[] else old(store)
    {
      var closePanicked := ui.Close();
      panicked := StopLoop();
      if panicked {
        return;
      }
      if clean {
        Clean();
      }
    }

    /**
     * Hand one request to the loop and wait for its answer.  On a stopped
     * cache the request channel is nil and the sender blocks forever: no
     * answer (None), nothing changes.
     */
    method Send(r: Req<T>, now: int) returns (res: Option<Res<T>>)
      modifies this
      ensures running == old(running)
      ensures !running ==> res.None? && store == old(store)
      ensures running ==> res.Some? && (store, res.value) == Step(old(store), r, now)
    {
      if !running {
        return None;
      }
      var answer := Process(r, now);
      return Some(answer);
    }

    /** GetUserInfo: one get request for the key; the store is unchanged and the answer is its item. */
    method GetUserInfo(requestKey: string, now: int) returns (res: Option<Res<T>>)
      modifies this
      ensures store == old(store) && running == old(running)
      ensures running ==> res == Some(Res(Lookup(store, requestKey), requestKey in store))
      ensures !running ==> res.None?
    {
      res := Send(Req(requestKey, false, None), now);
    }

    /**
     * DelCacheKey: exactly one request, with `del` set, for the key; the key
     * is gone afterwards and the single answer says whether it was there.
     */
    method DelCacheKey(requestKey: string, now: int) returns (res: Option<Res<T>>)
      modifies this
      ensures running == old(running)
      ensures running ==> store == old(store) - {requestKey}
                          && res == Some(Res(None, requestKey in old(store)))
      ensures !running ==> res.None? && store == old(store)
    {
      res := Send(Req(requestKey, true, None), now);
    }
  }

  /**
   * New: when userinfo.New fails (no config, or the connection cannot be
   * opened) the error is wrapped and no cache is made; otherwise a cache
   * with an empty store and a running loop.
   */
  method New<T>(config: Option<UserInfo.SqlConfig>, driverOk: bool) returns (c: Cache?<T>, err: Option<CacheError>)
    ensures config.None? ==> c == null && err == Some(Initializing(UserInfo.ErrNoConfig))
    ensures config.Some? && !driverOk ==>
              c == null && err == Some(Initializing(UserInfo.Connecting(config.value.host)))
    ensures config.Some? && driverOk ==>
              c != null && fresh(c) && err.None? && c.Valid()
              && c.running && c.store == map[] && c.ui.config == config.value
  {
    var ui, e := UserInfo.New(config, driverOk);
    if e.Some? {
      return null, Some(Initializing(e.value));
    }
    c := new Cache(ui);
    c.StartLoop();
    return c, None;
  }
}
