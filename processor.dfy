/**
 * pkg/cache/processor.go, as a specification: the request and response
 * records of the cache loop, what one request does to the store (Step),
 * and what a sequence of requests does (Run).  The loop itself is the
 * class in module Cache, proved against these functions.
 */
module Processor {
  import opened Wrappers

  /** A stored entry: the saved data and the clock reading when it was saved. */
  datatype Item<T> = Item(data: T, time: int)

  /** A request: save when `data` is present, else delete when `del`, else get. */
  datatype Req<T> = Req(key: string, del: bool, data: Option<T>)

  /** A response: the item handed back (the live entry, not a copy) and whether the key was present (Go: `exists`). */
  datatype Res<T> = Res(item: Option<Item<T>>, present: bool)

  /** The store as processRequests sees it. */
  type Store<T> = map<string, Item<T>>

  /** The stored item of `key`, if any. */
  function Lookup<T>(store: Store<T>, key: string): Option<Item<T>>
  {
    if key in store then Some(store[key]) else None
  }

  /** One iteration of processRequests: the new store and the one response sent back. */
  function Step<T>(store: Store<T>, r: Req<T>, now: int): (Store<T>, Res<T>)
  {
    if r.data.Some? then
      var it := Item(r.data.value, now);
      (store[r.key := it], Res(Some(it), r.key in store))
    else if r.del then
      (store - {r.key}, Res(None, r.key in store))
    else
      (store, Res(Lookup(store, r.key), r.key in store))
  }

  /**
   * Data present means save, whether or not `del` is set: the key maps to a
   * new item with that data and the clock reading, the response returns that
   * item, and `present` says whether the key was there before.
   */
  lemma StepSave<T>(store: Store<T>, r: Req<T>, now: int)
    requires r.data.Some?
    ensures var (s, res) := Step(store, r, now);
            && s == store[r.key := Item(r.data.value, now)]
            && res.item == Some(s[r.key])
            && (res.present <==> r.key in store)
  {
  }

  /** No data and `del`: the key is absent afterwards, no item is returned, `present` says whether it was there. */
  lemma StepDelete<T>(store: Store<T>, r: Req<T>, now: int)
    requires r.data.None? && r.del
    ensures var (s, res) := Step(store, r, now);
            && s == store - {r.key} && r.key !in s
            && res.item.None?
            && (res.present <==> r.key in store)
  {
  }

  /** No data and no `del`: a get, which leaves the store alone and returns the stored item and its presence. */
  lemma StepGet<T>(store: Store<T>, r: Req<T>, now: int)
    requires r.data.None? && !r.del
    ensures var (s, res) := Step(store, r, now);
            && s == store
            && res.item == Lookup(store, r.key)
            && (res.present <==> r.key in store)
            && (res.present <==> res.item.Some?)
  {
  }

  /** A request touches only its own key. */
  lemma StepFrame<T>(store: Store<T>, r: Req<T>, now: int, k: string)
    requires k != r.key
    ensures Lookup(Step(store, r, now).0, k) == Lookup(store, k)
  {
  }

  /** The loop over a sequence of requests, `clock[i]` being the time at which request i is processed. */
  function Run<T>(store: Store<T>, reqs: seq<Req<T>>, clock: seq<int>): (Store<T>, seq<Res<T>>)
    requires |clock| == |reqs|
    decreases |reqs|
  {
    if |reqs| == 0 then (store, [])
    else
      var first := Step(store, reqs[0], clock[0]);
      var rest := Run(first.0, reqs[1..], clock[1..]);
      (rest.0, [first.1] + rest.1)
  }

  /** Every request gets exactly one response. */
  lemma {:induction false} RunLength<T>(store: Store<T>, reqs: seq<Req<T>>, clock: seq<int>)
    requires |clock| == |reqs|
    ensures |Run(store, reqs, clock).1| == |reqs|
    decreases |reqs|
  {
    if |reqs| > 0 {
      var s1 := Step(store, reqs[0], clock[0]).0;
      RunLength(s1, reqs[1..], clock[1..]);
    }
  }

  /** Processing one more request extends the run by one step. */
  lemma {:induction false} RunSnoc<T>(store: Store<T>, reqs: seq<Req<T>>, clock: seq<int>, r: Req<T>, now: int)
    requires |clock| == |reqs|
    ensures var before := Run(store, reqs, clock);
            var last := Step(before.0, r, now);
            var after := Run(store, reqs + [r], clock + [now]);
            after.0 == last.0 && after.1 == before.1 + [last.1]
    decreases |reqs|
  {
    if |reqs| == 0 {
      assert reqs + [r] == [r] && [r][1..] == [];
      assert clock + [now] == [now] && [now][1..] == [];
    } else {
      var first := Step(store, reqs[0], clock[0]);
      assert (reqs + [r])[0] == reqs[0] && (clock + [now])[0] == clock[0];
      assert (reqs + [r])[1..] == reqs[1..] + [r];
      assert (clock + [now])[1..] == clock[1..] + [now];
      RunSnoc(first.0, reqs[1..], clock[1..], r, now);
      var rest := Run(first.0, reqs[1..], clock[1..]);
      var last := Step(rest.0, r, now);
      assert [first.1] + (rest.1 + [last.1]) == ([first.1] + rest.1) + [last.1];
    }
  }

  /**
   * Responses come back in request order: response i is what request i
   * gives on the store left by requests 0..i-1.
   */
  lemma {:induction false} RunResponseAt<T>(store: Store<T>, reqs: seq<Req<T>>, clock: seq<int>, i: nat)
    requires |clock| == |reqs| && i < |reqs|
    ensures |Run(store, reqs, clock).1| == |reqs|
    ensures Run(store, reqs, clock).1[i] == Step(Run(store, reqs[..i], clock[..i]).0, reqs[i], clock[i]).1
    decreases i
  {
    RunLength(store, reqs, clock);
    var s1 := Step(store, reqs[0], clock[0]).0;
    if i > 0 {
      RunResponseAt(s1, reqs[1..], clock[1..], i - 1);
      assert reqs[..i][1..] == reqs[1..][..i - 1];
      assert clock[..i][1..] == clock[1..][..i - 1];
    }
  }

  /** A key that no request names is the same after the run. */
  lemma {:induction false} RunFrame<T>(store: Store<T>, reqs: seq<Req<T>>, clock: seq<int>, k: string)
    requires |clock| == |reqs|
    requires forall i :: 0 <= i < |reqs| ==> reqs[i].key != k
    ensures Lookup(Run(store, reqs, clock).0, k) == Lookup(store, k)
    decreases |reqs|
  {
    if |reqs| > 0 {
      var s1 := Step(store, reqs[0], clock[0]).0;
      StepFrame(store, reqs[0], clock[0], k);
      RunFrame(s1, reqs[1..], clock[1..], k);
    }
  }
}
