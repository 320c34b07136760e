/** What one event and one drain do, case by case: the store, the hash list, the queue and the requests made. */
module Events {
  import opened Common
  import opened Workqueue
  import opened HashList
  import opened ResourceCache
  import opened Replication

  /** Membership and hashes are the same, and so are the marks, except that `marked` are active now. */
  ghost predicate OnlyMarks(hs: Hashes, hs': Hashes, marked: set<string>) {
    forall uid ::
      && (uid in hs' <==> uid in hs)
      && (uid in hs ==> hs'[uid].hash == hs[uid].hash && (hs'[uid].active <==> hs[uid].active || uid in marked))
  }

  /** The hash list already has this hash for the uid. */
  predicate Known(s: State, e: Step)
    requires Names(e)
  {
    var res := e.input.value;
    res.uid in s.hashes && s.hashes[res.uid].hash == res.hash
  }

  /** While the clean-up is pending an add or update marks its uid, whatever becomes of it. */
  function Marked(s: State, e: Step): set<string>
    requires Names(e)
  {
    if s.cleanupRunning && !e.action.Delete? then {e.input.value.uid} else {}
  }

  function AddedEvent(s: State, e: Step): seq<Entry>
    requires Names(e)
  {
    var res := e.input.value;
    Added(s.queue, ResourceUpdate(res.uid, e.action, res.hash, res.body), e.now)
  }

  lemma UnusableEvent(s: State, e: Step)
    requires e.Event? && !Names(e)
    ensures Next(s, e) == s && EventRequests(s.hashes, e.action, e.input) == []
  {
  }

  /** An event whose send fails changes no hash and nothing in the store: it marks its uid and is queued. */
  lemma FailedSend(s: State, e: Step)
    requires Names(e) && !e.action.Other? && !e.ok
    requires !e.action.Delete? ==> !Known(s, e)
    ensures var s' := Next(s, e);
            && s'.remote == s.remote && s'.cleanupRunning == s.cleanupRunning
            && OnlyMarks(s.hashes, s'.hashes, Marked(s, e))
            && s'.queue == AddedEvent(s, e)
  {
    hide Added;
  }

  /** An add or update with the known hash makes no request and only marks its uid. */
  lemma SuppressedSend(s: State, e: Step)
    requires Names(e) && !e.action.Delete? && Known(s, e)
    ensures var s' := Next(s, e);
            && s'.remote == s.remote && s'.cleanupRunning == s.cleanupRunning && s'.queue == s.queue
            && OnlyMarks(s.hashes, s'.hashes, Marked(s, e))
    ensures EventRequests(s.hashes, e.action, e.input) == []
  {
  }

  /** An acknowledged add or update puts hash and content in the store and the hash on the list, for its uid only.
      A uid that is new to the list is active; another keeps its mark, or gets one while the clean-up is pending. */
  lemma AcknowledgedPut(s: State, e: Step)
    requires Names(e) && (e.action.Add? || e.action.Update?) && e.ok && !Known(s, e)
    ensures var s', res := Next(s, e), e.input.value;
            && s'.queue == s.queue && s'.cleanupRunning == s.cleanupRunning
            && (forall uid :: Get(s'.remote, uid) ==
                  if uid == res.uid then Some(Stored(res.hash, res.body)) else Get(s.remote, uid))
            && (forall uid :: uid != res.uid ==> Get(s'.hashes, uid) == Get(s.hashes, uid))
            && Get(s'.hashes, res.uid) ==
               Some(HashItem(res.hash, res.uid in s.hashes ==> s.hashes[res.uid].active || s.cleanupRunning))
  {
  }

  lemma AcknowledgedDelete(s: State, e: Step)
    requires Names(e) && e.action.Delete? && e.ok
    ensures var s', gone := Next(s, e), e.input.value.uid;
            && s'.queue == s.queue && s'.cleanupRunning == s.cleanupRunning && s'.hashes == s.hashes
            && (forall uid :: Get(s'.remote, uid) == if uid == gone then None else Get(s.remote, uid))
  {
  }

  /** An unknown action is not sent and not queued, yet it counts as sent: its hash goes on the list, so that the
      next add or update with this hash is suppressed although the store never got it. */
  lemma UnknownActionIsRecorded(s: State, e: Step, later: Step)
    requires Names(e) && e.action.Other? && !Known(s, e)
    requires Names(later) && !later.action.Delete? && later.input == e.input
    ensures Next(s, e).remote == s.remote && Next(s, e).queue == s.queue
    ensures EventRequests(s.hashes, e.action, e.input) == []
    ensures Known(Next(s, e), later) && Next(Next(s, e), later).remote == s.remote
  {
  }

  /** A request is made exactly for a delete and for an add or update whose hash is not on the list, and it is
      the create, update or delete call of the event's own resource. */
  lemma EventAsks(s: State, e: Step)
    requires Names(e) && !e.action.Other?
    ensures var res, asked := e.input.value, EventRequests(s.hashes, e.action, e.input);
            asked == if e.action.Delete? then [DeleteRequest(res.uid)]
                     else if Known(s, e) then []
                     else if e.action.Add? then [CreateRequest(ResourceUpdate(res.uid, Add, res.hash, res.body))]
                     else [UpdateRequest(ResourceUpdate(res.uid, Update, res.hash, res.body))]
  {
  }

  lemma {:induction false} RequestsAt(us: seq<ResourceUpdate>, i: nat)
    requires i < |us| && forall u :: u in us ==> u.Sendable()
    ensures |RequestsFor(us)| == |us| && [RequestsFor(us)[i]] == RequestFor(us[i])
  {
    var init, last := us[..|us| - 1], us[|us| - 1];
    assert last in us;
    if init != [] {
      RequestsAt(init, if i < |init| then i else 0);
    }
  }

  lemma TriedAsk(tried: seq<Entry>, i: nat)
    requires i < |tried| && forall e :: e in tried ==> e.update.Sendable()
    ensures var asked := RequestsFor(Updates(tried));
            |asked| == |tried| && [asked[i]] == RequestFor(tried[i].update)
  {
    var us := Updates(tried);
    forall u | u in us
      ensures u.Sendable()
    {
      var j :| 0 <= j < |us| && us[j] == u;
      assert tried[j] in tried;
    }
    RequestsAt(us, i);
  }

  /** A drain asks for the i-th queued entry exactly when every entry before it was acknowledged. */
  lemma DrainAsks(q: seq<Entry>, acks: seq<bool>, i: nat)
    requires forall e :: e in q ==> e.update.Sendable()
    requires i < |q|
    ensures |DrainRequests(q, acks)| <= |q|
    ensures i < |DrainRequests(q, acks)| <==> forall j :: 0 <= j < i ==> Acked(acks, j)
    ensures i < |DrainRequests(q, acks)| ==> [DrainRequests(q, acks)[i]] == RequestFor(q[i].update)
  {
    hide AckedUpTo, RequestsFor, RequestFor, Updates, Acked;
    var k := AckedUpTo(q, acks, 0);
    var n := if k < |q| then k + 1 else k;
    forall e | e in q[..n]
      ensures e.update.Sendable()
    {
    }
    TriedAsk(q[..n], if i < n then i else 0);
    assert forall j :: 0 <= j < |q| ==> q[j] in q;
  }
}
