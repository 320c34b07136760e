/** The resource cache of internal/services/resourceupdate: suppress, send or queue each event, drain the
    queue, and sweep once after start-up. One handler call, one drain or one sweep is one atomic step. */
module ResourceCache {
  import opened Common
  import opened Workqueue
  import opened HashList

  /** What NewFromUnstructured extracts from an object it can handle. */
  datatype Resource = Resource(uid: string, hash: string, body: string)

  datatype State = State(hashes: Hashes, queue: seq<Entry>, cleanupRunning: bool, remote: Remote)

  function ToUpdate(res: Resource, action: Action): ResourceUpdate {
    ResourceUpdate(res.uid, action, res.hash, res.body)
  }

  /** Only a call that goes out can fail; an unknown action returns success without sending. */
  predicate CallFails(u: ResourceUpdate, ok: bool) {
    u.Sendable() && !ok
  }

  /** SendResource for one event; `ok` says whether the ROR API acknowledges the call, if one is made. */
  function Delivered(s: State, action: Action, input: Option<Resource>, ok: bool, now: int): State {
    match input
    case None => s
    case Some(res) =>
      var u := ToUpdate(res, action);
      var marked := if s.cleanupRunning && !action.Delete? then s.(hashes := MarkedActive(s.hashes, res.uid)) else s;
      if !action.Delete? && !UpdateNeeded(marked.hashes, res.uid, res.hash) then marked
      else if CallFails(u, ok) then marked.(queue := Added(s.queue, u, now))
      else if action.Delete? then marked.(remote := Apply(s.remote, u))
      else marked.(remote := Apply(s.remote, u), hashes := HashUpdated(marked.hashes, res.uid, res.hash))
  }

  /** The outcome of the i-th call of a drain; calls beyond the recorded ones fail. */
  predicate Acked(acks: seq<bool>, i: nat) {
    i < |acks| && acks[i]
  }

  /** The end of the stretch of acknowledged entries that starts at i. */
  function AckedUpTo(q: seq<Entry>, acks: seq<bool>, i: nat): (k: nat)
    requires i <= |q|
    ensures i <= k <= |q|
    ensures forall j :: i <= j < k ==> !CallFails(q[j].update, Acked(acks, j))
    ensures k < |q| ==> CallFails(q[k].update, Acked(acks, k))
    decreases |q| - i
  {
    if i == |q| || CallFails(q[i].update, Acked(acks, i)) then i else AckedUpTo(q, acks, i + 1)
  }

  /** An acknowledged retry, as the drain records it. */
  function Retried(s: State, u: ResourceUpdate): State {
    s.(remote := Apply(s.remote, u), queue := Removed(s.queue, u.uid), hashes := HashUpdated(s.hashes, u.uid, u.hash))
  }

  /** The drain from the i-th entry of the slice it ranges over, while the live queue changes. */
  function DrainedFrom(s: State, snapshot: seq<Entry>, i: nat, acks: seq<bool>, now: int): State
    requires i <= |snapshot|
    decreases |snapshot| - i
  {
    if i == |snapshot| then s else
    var u := snapshot[i].update;
    if CallFails(u, Acked(acks, i)) then s.(queue := Added(s.queue, u, now))
    else DrainedFrom(Retried(s, u), snapshot, i + 1, acks, now)
  }

  function Drained(s: State, acks: seq<bool>, now: int): State {
    DrainedFrom(s, s.queue, 0, acks, now)
  }

  /** The one-shot sweep; `acked` are the uids whose delete the API acknowledges. */
  function Swept(s: State, acked: set<string>): State {
    if !s.cleanupRunning then s
    else s.(cleanupRunning := false, remote := s.remote - (InactiveUids(s.hashes) * acked))
  }

  // ---- The requests the agent makes ----

  datatype Request =
    | CreateRequest(created: ResourceUpdate)
    | UpdateRequest(updated: ResourceUpdate)
    | DeleteRequest(uid: string)

  function RequestFor(u: ResourceUpdate): seq<Request> {
    match u.action
    case Add => [CreateRequest(u)]
    case Update => [UpdateRequest(u)]
    case Delete => [DeleteRequest(u.uid)]
    case Other(_) => []
  }

  function RequestsFor(us: seq<ResourceUpdate>): seq<Request> {
    if us == [] then [] else RequestsFor(us[..|us| - 1]) + RequestFor(us[|us| - 1])
  }

  /** What an event asks the API: nothing for an add or update whose hash is on the list. */
  function EventRequests(hs: Hashes, action: Action, input: Option<Resource>): seq<Request> {
    if input.None? || (!action.Delete? && !UpdateNeeded(hs, input.value.uid, input.value.hash)) then []
    else RequestFor(ToUpdate(input.value, action))
  }

  /** What a drain asks: one request for each entry, the first that fails included. */
  function DrainRequests(q: seq<Entry>, acks: seq<bool>): seq<Request> {
    var k := AckedUpTo(q, acks, 0);
    RequestsFor(Updates(q[..if k < |q| then k + 1 else k]))
  }

  lemma NoRequests(q: seq<Entry>)
    ensures RequestsFor(Updates(q[..0])) == []
  {
  }

  lemma OneMoreRetry(q: seq<Entry>, acks: seq<bool>, i: nat)
    requires i < |q|
    ensures RequestsFor(Updates(q[..i + 1])) == RequestsFor(Updates(q[..i])) + RequestFor(q[i].update)
    ensures AckedUpTo(q, acks, i) == if CallFails(q[i].update, Acked(acks, i)) then i else AckedUpTo(q, acks, i + 1)
  {
    assert Updates(q[..i + 1])[..i] == Updates(q[..i]);
  }

  function Deletes(uids: seq<string>): (rs: seq<Request>)
    ensures |rs| == |uids| && forall i :: 0 <= i < |rs| ==> rs[i] == DeleteRequest(uids[i])
  {
    seq(|uids|, i requires 0 <= i < |uids| => DeleteRequest(uids[i]))
  }

  /** One delete for each of these uids, in any order, and nothing else. */
  ghost predicate DeletesOf(rs: seq<Request>, uids: set<string>) {
    && (forall r :: r in rs ==> r.DeleteRequest? && r.uid in uids)
    && (forall uid :: uid in uids ==> DeleteRequest(uid) in rs)
    && (forall i, j :: 0 <= i < j < |rs| ==> rs[i] != rs[j])
  }

  /** The ROR API, seen through the three calls the agent makes. A failed call changes nothing in the store. */
  class RorApi {
    var store: Remote
    var requests: seq<Request>

    constructor (start: Remote)
      ensures store == start && requests == []
    {
      store, requests := start, [];
    }

    method Create(u: ResourceUpdate, ok: bool) returns (err: bool)
      modifies this
      ensures err == !ok && requests == old(requests) + [CreateRequest(u)]
      ensures store == if ok then old(store)[u.uid := Stored(u.hash, u.body)] else old(store)
    {
      requests := requests + [CreateRequest(u)];
      if ok {
        store := store[u.uid := Stored(u.hash, u.body)];
      }
      err := !ok;
    }

    method Update(u: ResourceUpdate, ok: bool) returns (err: bool)
      modifies this
      ensures err == !ok && requests == old(requests) + [UpdateRequest(u)]
      ensures store == if ok then old(store)[u.uid := Stored(u.hash, u.body)] else old(store)
    {
      requests := requests + [UpdateRequest(u)];
      if ok {
        store := store[u.uid := Stored(u.hash, u.body)];
      }
      err := !ok;
    }

    method Delete(uid: string, ok: bool) returns (err: bool)
      modifies this
      ensures err == !ok && requests == old(requests) + [DeleteRequest(uid)]
      ensures store == if ok then old(store) - {uid} else old(store)
    {
      requests := requests + [DeleteRequest(uid)];
      if ok {
        store := store - {uid};
      }
      err := !ok;
    }
  }

  class Cache {
    const api: RorApi
    const hashList: List
    const workqueue: Queue
    var cleanupRunning: bool

    ghost function Abs(): State
      reads this, api, hashList, workqueue
    {
      State(hashList.items, workqueue.items, cleanupRunning, api.store)
    }

    /** MustInit: the hash list as fetched, an empty queue, and the clean-up scheduled. */
    constructor (api: RorApi, hashes: Hashes)
      ensures this.api == api && fresh(hashList) && fresh(workqueue)
      ensures Abs() == State(hashes, [], true, api.store)
    {
      this.api := api;
      hashList := new List(hashes);
      workqueue := new Queue();
      cleanupRunning := true;
    }

    method SendResourceUpdateToRor(u: ResourceUpdate, ok: bool) returns (err: bool)
      modifies api
      ensures err == CallFails(u, ok)
      ensures api.store == if err then old(api.store) else Apply(old(api.store), u)
      ensures api.requests == old(api.requests) + RequestFor(u)
    {
      err := false;
      match u.action
      case Update => err := api.Update(u, ok);
      case Add => err := api.Create(u, ok);
      case Delete => err := api.Delete(u.uid, ok);
      case Other(_) =>
    }

    method SendResource(action: Action, input: Option<Resource>, ok: bool, now: int)
      modifies this, api, hashList, workqueue
      ensures Abs() == Delivered(old(Abs()), action, input, ok, now)
      ensures api.requests == old(api.requests) + EventRequests(old(hashList.items), action, input)
    {
      if input.None? {
        return;
      }
      var u := ToUpdate(input.value, action);
      if action != Action.Delete {
        if cleanupRunning {
          hashList.MarkActive(u.uid);
        }
        var needUpdate := hashList.CheckUpdateNeeded(u.uid, u.hash);
        if needUpdate {
          var err := SendResourceUpdateToRor(u, ok);
          if err {
            workqueue.Add(u, now);
            return;
          }
          hashList.UpdateHash(u.uid, u.hash);
        }
      } else {
        var err := SendResourceUpdateToRor(u, ok);
        if err {
          workqueue.Add(u, now);
          return;
        }
      }
    }

    method RunWorkQue(acks: seq<bool>, now: int)
      modifies this, api, hashList, workqueue
      ensures Abs() == Drained(old(Abs()), acks, now)
      ensures api.requests == old(api.requests) + DrainRequests(old(workqueue.items), acks)
    {
      hide RequestsFor, RequestFor, AckedUpTo, Updates, Added, Removed, HashUpdated, Apply;
      var snapshot := workqueue.items;
      NoRequests(snapshot);
      for i := 0 to |snapshot|
        invariant DrainedFrom(Abs(), snapshot, i, acks, now) == Drained(old(Abs()), acks, now)
        invariant AckedUpTo(snapshot, acks, i) == AckedUpTo(snapshot, acks, 0)
        invariant api.requests == old(api.requests) + RequestsFor(Updates(snapshot[..i]))
      {
        OneMoreRetry(snapshot, acks, i);
        var u := snapshot[i].update;
        var err := SendResourceUpdateToRor(u, i < |acks| && acks[i]);
        if err {
          workqueue.Add(u, now);
          return;
        }
        workqueue.DeleteByUid(u.uid);
        hashList.UpdateHash(u.uid, u.hash);
      }
    }

    /** The scheduler's tick. */
    method RunWorkqueueScheduler(acks: seq<bool>, now: int)
      modifies this, api, hashList, workqueue
      ensures Abs() == Drained(old(Abs()), acks, now)
      ensures api.requests == old(api.requests) + DrainRequests(old(workqueue.items), acks)
    {
      if |workqueue.items| > 0 {
        RunWorkQue(acks, now);
      }
    }

    method FinnishCleanup(acked: set<string>)
      modifies this, api
      ensures Abs() == Swept(old(Abs()), acked)
      ensures old(api.requests) <= api.requests
      ensures DeletesOf(api.requests[|old(api.requests)|..],
                if old(cleanupRunning) then InactiveUids(hashList.items) else {})
    {
      if !cleanupRunning {
        return;
      }
      cleanupRunning := false;
      var inactive := hashList.GetInactiveUid();
      for i := 0 to |inactive|
        invariant !cleanupRunning && hashList.items == old(hashList.items) && workqueue.items == old(workqueue.items)
        invariant api.requests == old(api.requests) + Deletes(inactive[..i])
        invariant api.store == old(api.store) - (set j | 0 <= j < i && inactive[j] in acked :: inactive[j])
      {
        var uid := inactive[i];
        var _ := SendResourceUpdateToRor(ResourceUpdate(uid, Action.Delete, "", ""), uid in acked);
      }
      assert (set j | 0 <= j < |inactive| && inactive[j] in acked :: inactive[j])
          == InactiveUids(hashList.items) * acked;
      assert DeletesOf(api.requests[|old(api.requests)|..], InactiveUids(hashList.items));
    }
  }
}
