/**
 * pkg/webserver/handlers_delete.go: the bulk delete used by automation.
 * The JSON body listing the looked-up items is not modelled; the headers,
 * the status and the cache's contents are.
 */
module HandlersDelete {
  import opened Wrappers
  import opened Text
  import opened Http
  import opened UserInfo
  import opened KeyCache

  /** The keys of the comma-separated list. */
  function KeySet(keys: seq<string>): set<string>
  {
    set k | k in keys
  }

  /** The user of a looked-up item: present with non-nil data. */
  predicate HasUser(info: Option<Item>)
  {
    info.Some? && info.value.data.Some?
  }

  /** The `user` variable after scanning `infos`: the last item's user, DefaultUser before any. */
  function Latest(infos: seq<Option<Item>>): UserInfo
  {
    if |infos| == 0 then DefaultUser()
    else if HasUser(infos[|infos| - 1]) then infos[|infos| - 1].value.data.value
    else Latest(infos[..|infos| - 1])
  }

  /** The last item whose user is not the default one, if any: the one whose X-UserID/X-Username stick. */
  function LastNamed(infos: seq<Option<Item>>): (u: Option<UserInfo>)
    ensures u.Some? ==> u.value.userID != DefaultUserID
    ensures u.Some? <==> exists i :: 0 <= i < |infos| && HasUser(infos[i])
                                                        && infos[i].value.data.value.userID != DefaultUserID
  {
    if |infos| == 0 then None
    else
      var last := infos[|infos| - 1];
      var prefix := infos[..|infos| - 1];
      assert forall i :: 0 <= i < |prefix| ==> prefix[i] == infos[i];
      if HasUser(last) && last.value.data.value.userID != DefaultUserID then Some(last.value.data.value)
      else LastNamed(prefix)
  }

  /** Whenever the scanned user is not the default one, it is the last named user. */
  lemma {:induction false} LatestIsNamed(infos: seq<Option<Item>>)
    requires Latest(infos).userID != DefaultUserID
    ensures LastNamed(infos) == Some(Latest(infos))
  {
    if |infos| > 0 && !HasUser(infos[|infos| - 1]) {
      LatestIsNamed(infos[..|infos| - 1]);
    }
  }

  /** X-UserID and X-Username of the named user, when there is one. */
  function NamedHeaders(h: map<string, string>, named: Option<UserInfo>): map<string, string>
  {
    if named.None? then h else h["X-UserID" := named.value.userID]["X-Username" := named.value.username]
  }

  /** The headers a delete ends with: the named user's, then environment "deleted", JSON, and Age. */
  function DeletedHeaders(h: map<string, string>, named: Option<UserInfo>, age: string): (r: map<string, string>)
    ensures r.Keys == NamedHeaders(h, named).Keys + {"X-Environment", "Content-Type", "Age"}
    ensures named.Some? ==> "X-UserID" in r && "X-Username" in r
    ensures r["X-Environment"] == "deleted" && r["Content-Type"] == "application/json" && r["Age"] == age
    ensures named.Some? ==> r["X-UserID"] == named.value.userID && r["X-Username"] == named.value.username
    ensures named.None? ==> forall k :: k in h && k !in {"X-Environment", "Content-Type", "Age"} ==> r[k] == h[k]
  {
    NamedHeaders(h, named)["X-Environment" := "deleted"]["Content-Type" := "application/json"]["Age" := age]
  }

  /**
   * One step of the header scan: after looking at one more item, the user
   * and the named headers are as Latest and LastNamed say for the longer
   * prefix.
   */
  lemma ScanStep(h: map<string, string>, infos: seq<Option<Item>>, i: int)
    requires 0 <= i < |infos|
    ensures var u := Latest(infos[..i + 1]);
            var named := NamedHeaders(h, LastNamed(infos[..i]));
            NamedHeaders(h, LastNamed(infos[..i + 1]))
              == if u.userID != DefaultUserID then named["X-UserID" := u.userID]["X-Username" := u.username] else named
  {
    var s := infos[..i + 1];
    assert s[..i] == infos[..i];
    var u := Latest(s);
    if u.userID != DefaultUserID {
      LatestIsNamed(s);
    }
  }

  /** The X-UserID/X-Username writes for the latest user found, skipped for the default user. */
  method NameUser(resp: Response, user: UserInfo)
    modifies resp
    ensures resp.header == if user.userID != DefaultUserID
                           then old(resp.header)["X-UserID" := user.userID]["X-Username" := user.username]
                           else old(resp.header)
    ensures resp.status == old(resp.status) && resp.body == old(resp.body)
  {
    if user.userID != DefaultUserID {
      resp.Set("X-UserID", user.userID);
      resp.Set("X-Username", user.username);
    }
  }

  /**
   * The loop of handleDelKey: one slot per key, in order, holding the
   * key's lookup; each step re-writes X-UserID/X-Username while the latest
   * user found is not the default one.
   */
  method LookupAll(users: Store, resp: Response, keys: seq<string>) returns (infos: seq<Option<Item>>)
    modifies resp
    ensures |infos| == |keys|
    ensures forall i :: 0 <= i < |keys| ==> infos[i] == KeyCache.Lookup(users.entries, keys[i])
    ensures resp.header == NamedHeaders(old(resp.header), LastNamed(infos))
    ensures resp.status == old(resp.status) && resp.body == old(resp.body)
  {
    var slots := new Option<Item>[|keys|](_ => None);
    var user := DefaultUser();
    for idx := 0 to |keys|
      invariant resp.status == old(resp.status) && resp.body == old(resp.body)
      invariant forall j :: 0 <= j < idx ==> slots[j] == KeyCache.Lookup(users.entries, keys[j])
      invariant user == Latest(slots[..idx])
      invariant resp.header == NamedHeaders(old(resp.header), LastNamed(slots[..idx]))
    {
      var got := users.Get(keys[idx]);
      slots[idx] := got;
      assert slots[..idx + 1][..idx] == slots[..idx];
      ScanStep(old(resp.header), slots[..], idx);
      assert slots[..][..idx] == slots[..idx] && slots[..][..idx + 1] == slots[..idx + 1];
      if got.Some? && got.value.data.Some? {
        user := got.value.data.value;
      }
      NameUser(resp, user);
    }
    assert slots[..|keys|] == slots[..];
    infos := slots[..];
  }

  /** The deferred deletes, run in reverse order of their defer statements: every key is gone. */
  method DeleteAll(users: Store, keys: seq<string>)
    modifies users
    ensures users.entries == old(users.entries) - KeySet(keys)
  {
    var i := |keys|;
    while i > 0
      invariant 0 <= i <= |keys|
      invariant users.entries == old(users.entries) - KeySet(keys[i..])
    {
      i := i - 1;
      assert KeySet(keys[i..]) == KeySet(keys[i + 1..]) + {keys[i]};
      var _ := users.Delete(keys[i]);
    }
    assert keys[0..] == keys;
  }

  /**
   * handleDelKey.  Every key of the comma-separated X-API-Keys header gets
   * one slot, in order, holding its lookup in the cache as it was.  The
   * headers name the last non-default user found, the environment is
   * "deleted", Age is the number of keys and the status 200.  The deletes
   * are deferred: they run after the response is written, and every listed
   * key is gone afterwards.
   */
  method HandleDelKey(users: Store, req: Request, resp: Response) returns (infos: seq<Option<Item>>)
    modifies users, resp
    ensures var keys := Split(Get(req.header, "X-API-Keys"), ',');
            |infos| == |keys|
            && (forall i :: 0 <= i < |keys| ==> infos[i] == KeyCache.Lookup(old(users.entries), keys[i]))
            && users.entries == old(users.entries) - KeySet(keys)
            && resp.header == DeletedHeaders(old(resp.header), LastNamed(infos), Itoa(|keys|))
    ensures resp.status == Written(old(resp.status), StatusOK)
  {
    var keys := Split(Get(req.header, "X-API-Keys"), ',');
    infos := LookupAll(users, resp, keys);
    resp.Set("X-Environment", "deleted");
    resp.Set("Content-Type", "application/json");
    resp.Set("Age", Itoa(|infos|));
    resp.WriteHeader(StatusOK);
    DeleteAll(users, keys);
  }
}
