/** From the cluster to the ROR API: the watcher's handler calls feed the resource cache. */
module EndToEnd {
  import opened Common
  import Workqueue
  import Cache = ResourceCache
  import opened Replication
  import MarkAndSweep
  import Suppression
  import opened Watcher
  import opened Mirror
  import opened CallLog

  /** The event a handler call becomes; `digest` is the hash of an object's content. Every send is acknowledged. */
  function EventOf(call: Call, digest: string -> string): Replication.Step {
    var action := match call {
      case AddCall(_) => Workqueue.Add
      case UpdateCall(_) => Workqueue.Update
      case DeleteCall(_) => Workqueue.Delete
    };
    Event(action, Some(Cache.Resource(call.obj.uid, digest(call.obj.content), call.obj.content)), true, 0)
  }

  function Events(calls: seq<Call>, digest: string -> string): (steps: seq<Replication.Step>)
    ensures |steps| == |calls|
    ensures forall i :: 0 <= i < |calls| ==> steps[i] == EventOf(calls[i], digest)
  {
    seq(|calls|, i requires 0 <= i < |calls| => EventOf(calls[i], digest))
  }

  /** The clean-up runs after the first k handler calls. */
  function SweptAfter(calls: seq<Call>, k: nat, digest: string -> string, acked: set<string>): seq<Replication.Step>
    requires k <= |calls|
  {
    Events(calls[..k], digest) + [Sweep(acked)] + Events(calls[k..], digest)
  }

  // ---- One handler call, seen from one uid ----

  /** Hash list and store both have this hash for the uid. */
  ghost predicate Held(s: Cache.State, uid: string, hash: string) {
    && uid in s.hashes && s.hashes[uid].hash == hash
    && uid in s.remote && s.remote[uid].hash == hash
  }

  ghost predicate SameHash(s: Cache.State, s': Cache.State, uid: string) {
    && (uid in s'.hashes <==> uid in s.hashes)
    && (uid in s.hashes ==> s'.hashes[uid].hash == s.hashes[uid].hash)
  }

  /** Store and hash list hold the same for this uid. */
  ghost predicate SameAt(s: Cache.State, s': Cache.State, uid: string) {
    Get(s'.remote, uid) == Get(s.remote, uid) && SameHash(s, s', uid)
  }

  /** The hash list suppresses an add or update of this content. */
  predicate Suppressed(s: Cache.State, call: Call, digest: string -> string) {
    var uid := call.obj.uid;
    uid in s.hashes && s.hashes[uid].hash == digest(call.obj.content)
  }

  /** An acknowledged call touches its own uid only: a delete empties the store there, and an add or update
      leaves its hash in both places unless it is suppressed. */
  lemma CallEffect(s: Cache.State, call: Call, digest: string -> string, uid: string)
    ensures var s' := Next(s, EventOf(call, digest));
            if uid != call.obj.uid then SameAt(s, s', uid)
            else if call.DeleteCall? then uid !in s'.remote && SameHash(s, s', uid)
            else if Suppressed(s, call, digest) then SameAt(s, s', uid)
            else Held(s', uid, digest(call.obj.content))
  {
  }

  /** The request a handler call leads to: a create for an add, an update for an update, unless it is suppressed,
      and a delete for a delete, with the object's own uid, hash and content. */
  lemma CallAsks(s: Cache.State, call: Call, digest: string -> string)
    ensures var e, obj, hash := EventOf(call, digest), call.obj, digest(call.obj.content);
            Cache.EventRequests(s.hashes, e.action, e.input) ==
            if call.DeleteCall? then [Cache.DeleteRequest(obj.uid)]
            else if Suppressed(s, call, digest) then []
            else if call.AddCall? then
              [Cache.CreateRequest(Workqueue.ResourceUpdate(obj.uid, Workqueue.Add, hash, obj.content))]
            else
              [Cache.UpdateRequest(Workqueue.ResourceUpdate(obj.uid, Workqueue.Update, hash, obj.content))]
  {
  }

  lemma MirroredSnoc(init: seq<Call>, call: Call, uid: string)
    ensures Get(Mirrored(init + [call]), uid) ==
            if uid != call.obj.uid then Get(Mirrored(init), uid)
            else if call.DeleteCall? then None else Some(call.obj.content)
  {
    assert (init + [call])[..|init|] == init;
  }

  /** A put of a uid that is not mirrored is the first call for that uid. */
  lemma FirstPutIsFresh(init: seq<Call>, call: Call)
    requires NoReuse(init + [call]) && !call.DeleteCall? && call.obj.uid !in Mirrored(init)
    ensures !Touched(init, call.obj.uid)
  {
    var calls := init + [call];
    assert calls[|init|] == call && forall i :: 0 <= i < |init| ==> calls[i] == init[i];
    if Touched(init, call.obj.uid) {
      TouchedButGone(init, call.obj.uid);
    }
  }

  // ---- Before the sweep ----

  ghost predicate BeforeSweepAt(s0: Cache.State, s: Cache.State, calls: seq<Call>, digest: string -> string,
      uid: string)
  {
    var mirror := Mirrored(calls);
    if uid in mirror then Held(s, uid, digest(mirror[uid]))
    else if Touched(calls, uid) then uid !in s.remote
    else SameAt(s0, s, uid)
  }

  lemma CallBeforeSweep(s0: Cache.State, s: Cache.State, init: seq<Call>, call: Call,
      digest: string -> string, uid: string)
    requires Agree(s0.hashes, s0.remote, {}) && NoReuse(init + [call])
    requires BeforeSweepAt(s0, s, init, digest, uid)
    ensures BeforeSweepAt(s0, Next(s, EventOf(call, digest)), init + [call], digest, uid)
  {
    CallEffect(s, call, digest, uid);
    MirroredSnoc(init, call, uid);
    TouchedSnoc(init, call, uid);
    assert Get(Mirrored(init + [call]), uid).Some? <==> uid in Mirrored(init + [call]);
    if uid == call.obj.uid && !call.DeleteCall? && uid !in Mirrored(init) {
      FirstPutIsFresh(init, call);
      assert Get(s.remote, uid) == Get(s0.remote, uid);
    }
    hide Next, EventOf, Touched, Mirrored, NoReuse;
  }

  lemma {:induction false} SyncedBeforeSweep(s0: Cache.State, calls: seq<Call>, digest: string -> string, uid: string)
    requires Agree(s0.hashes, s0.remote, {}) && NoReuse(calls)
    ensures BeforeSweepAt(s0, Run(s0, Events(calls, digest)), calls, digest, uid)
  {
    if calls != [] {
      var init, call := calls[..|calls| - 1], calls[|calls| - 1];
      assert init + [call] == calls && Events(calls, digest) == Events(init, digest) + [EventOf(call, digest)];
      hide BeforeSweepAt, Next, EventOf, NoReuse, Agree;
      NoReusePrefix(init, calls);
      SyncedBeforeSweep(s0, init, digest, uid);
      RunExtends(s0, Events(init, digest), EventOf(call, digest));
      CallBeforeSweep(s0, Run(s0, Events(init, digest)), init, call, digest, uid);
    }
  }

  // ---- The sweep and after ----

  /** The uid was on the hash list at start, had no call before the sweep, and only calls with its old hash since:
      the sweep deletes it from the store and every later add or update is suppressed. */
  ghost predicate Lost(calls: seq<Call>, k: nat, s0: Cache.State, digest: string -> string, uid: string)
    requires k <= |calls|
  {
    && uid in s0.hashes && !Touched(calls[..k], uid)
    && forall i :: k <= i < |calls| && calls[i].obj.uid == uid && !calls[i].DeleteCall? ==>
         digest(calls[i].obj.content) == s0.hashes[uid].hash
  }

  ghost predicate AfterSweepAt(s0: Cache.State, s: Cache.State, calls: seq<Call>, k: nat,
      digest: string -> string, uid: string)
    requires k <= |calls|
  {
    var mirror := Mirrored(calls);
    if uid !in mirror then uid !in s.remote && (!Touched(calls, uid) ==> SameHash(s0, s, uid))
    else if Lost(calls, k, s0, digest, uid) then uid !in s.remote && SameHash(s0, s, uid)
    else Held(s, uid, digest(mirror[uid]))
  }

  lemma {:induction false} SeenIsTouched(calls: seq<Call>, digest: string -> string, uid: string)
    ensures uid in MarkAndSweep.Seen(Events(calls, digest))
       <==> exists i :: 0 <= i < |calls| && !calls[i].DeleteCall? && calls[i].obj.uid == uid
  {
    if calls != [] {
      var n := |calls| - 1;
      assert Events(calls, digest)[..n] == Events(calls[..n], digest);
      SeenIsTouched(calls[..n], digest, uid);
      assert forall i :: 0 <= i < n ==> calls[..n][i] == calls[i];
    }
  }

  /** At start the API knows the uid only if the hash list does, and then its delete will be acknowledged. */
  predicate Sweepable(s0: Cache.State, acked: set<string>, uid: string) {
    uid in s0.remote ==> uid in s0.hashes && uid in acked
  }

  lemma SweepAt(s0: Cache.State, calls: seq<Call>, digest: string -> string, acked: set<string>, uid: string)
    requires StartUp(s0) && Sweepable(s0, acked, uid) && NoReuse(calls)
    ensures AfterSweepAt(s0, Run(s0, Events(calls, digest) + [Sweep(acked)]), calls, |calls|, digest, uid)
  {
    var s := Run(s0, Events(calls, digest));
    SyncedBeforeSweep(s0, calls, digest, uid);
    MarkAndSweep.SweepDeletesExactlyTheUnseen(s0, Events(calls, digest), acked, [], {});
    SeenIsTouched(calls, digest, uid);
    if uid in Mirrored(calls) {
      MirroredIsPut(calls, uid);
      assert calls[..|calls|] == calls && Touched(calls, uid);
    } else if !Touched(calls, uid) {
      assert Get(s.remote, uid) == Get(s0.remote, uid);
    }
  }

  lemma LostSnoc(init: seq<Call>, call: Call, k: nat, s0: Cache.State, digest: string -> string, uid: string)
    requires k <= |init|
    ensures Lost(init + [call], k, s0, digest, uid) <==>
            Lost(init, k, s0, digest, uid) &&
            (uid == call.obj.uid && !call.DeleteCall? ==> digest(call.obj.content) == s0.hashes[uid].hash)
  {
    var calls := init + [call];
    assert calls[..k] == init[..k] && calls[|init|] == call;
    assert forall i :: 0 <= i < |init| ==> calls[i] == init[i];
  }

  /** Up to its first call every start-up uid without a call before the sweep counts as lost. */
  lemma UntouchedIsLost(calls: seq<Call>, k: nat, s0: Cache.State, digest: string -> string, uid: string)
    requires k <= |calls| && uid in s0.hashes && !Touched(calls, uid)
    ensures Lost(calls, k, s0, digest, uid)
  {
    if Touched(calls[..k], uid) {
      TouchedPrefix(calls[..k], calls, uid);
    }
  }

  lemma CallAfterSweep(s0: Cache.State, s: Cache.State, init: seq<Call>, call: Call, k: nat,
      digest: string -> string, uid: string)
    requires k <= |init| && NoReuse(init + [call])
    requires AfterSweepAt(s0, s, init, k, digest, uid)
    ensures AfterSweepAt(s0, Next(s, EventOf(call, digest)), init + [call], k, digest, uid)
  {
    CallEffect(s, call, digest, uid);
    MirroredSnoc(init, call, uid);
    TouchedSnoc(init, call, uid);
    LostSnoc(init, call, k, s0, digest, uid);
    assert Get(Mirrored(init + [call]), uid).Some? <==> uid in Mirrored(init + [call]);
    if uid == call.obj.uid && !call.DeleteCall? && uid !in Mirrored(init) {
      FirstPutIsFresh(init, call);
      if uid in s0.hashes { UntouchedIsLost(init, k, s0, digest, uid); }
    }
    hide Next, EventOf, Touched, Mirrored, NoReuse, Lost;
  }

  lemma {:induction false} SweptAt(s0: Cache.State, calls: seq<Call>, k: nat, digest: string -> string,
      acked: set<string>, uid: string)
    requires StartUp(s0) && Sweepable(s0, acked, uid) && NoReuse(calls) && k <= |calls|
    ensures AfterSweepAt(s0, Run(s0, SweptAfter(calls, k, digest, acked)), calls, k, digest, uid)
  {
    hide AfterSweepAt, StartUp, NoReuse, EventOf, Next;
    if k == |calls| {
      assert calls[..k] == calls && SweptAfter(calls, k, digest, acked) == Events(calls, digest) + [Sweep(acked)];
      SweepAt(s0, calls, digest, acked, uid);
    } else {
      var init, call := calls[..|calls| - 1], calls[|calls| - 1];
      var before := SweptAfter(init, k, digest, acked);
      assert init + [call] == calls && init[..k] == calls[..k];
      assert SweptAfter(calls, k, digest, acked) == before + [EventOf(call, digest)];
      NoReusePrefix(init, calls);
      SweptAt(s0, init, k, digest, acked, uid);
      RunExtends(s0, before, EventOf(call, digest));
      CallAfterSweep(s0, Run(s0, before), init, call, k, digest, uid);
    }
  }

  // ---- What a sweep loses ----

  function Hashed(objects: Objects, digest: string -> string): map<string, string> {
    map uid | uid in objects :: digest(objects[uid])
  }

  /** The store after a run with a sweep, uid by uid: the mirror without the lost uids. */
  lemma StoreIsMirrorWithoutLost(s: Cache.State, calls: seq<Call>, k: nat, digest: string -> string,
      acked: set<string>, uid: string)
    requires StartUp(s) && Sweepable(s, acked, uid) && NoReuse(calls) && k <= |calls|
    ensures Get(Suppression.HashView(Run(s, SweptAfter(calls, k, digest, acked)).remote), uid) ==
            if Lost(calls, k, s, digest, uid) then None else Get(Hashed(Mirrored(calls), digest), uid)
  {
    SweptAt(s, calls, k, digest, acked, uid);
  }

  /** A start-up uid whose first call comes after the sweep. */
  ghost predicate ListedLate(s: Cache.State, calls: seq<Call>, k: nat, uid: string)
    requires k <= |calls|
  {
    uid in Mirrored(calls) && uid in s.hashes && !Touched(calls[..k], uid)
  }

  /** From the k-th call on, an add or update of the uid has another hash than at start. */
  ghost predicate NewHashLater(s: Cache.State, calls: seq<Call>, k: nat, digest: string -> string, uid: string)
    requires uid in s.hashes
  {
    exists i :: k <= i < |calls| && calls[i].obj.uid == uid && !calls[i].DeleteCall? &&
                digest(calls[i].obj.content) != s.hashes[uid].hash
  }

  /** The sweep loses nothing exactly when every start-up object that is listed only after it comes with a new
      hash at some point; an object that never changes is deleted and then suppressed for good. */
  lemma SweepLosesNothingIff(s: Cache.State, calls: seq<Call>, k: nat, digest: string -> string, acked: set<string>)
    requires StartUp(s) && s.remote.Keys == s.hashes.Keys <= acked && NoReuse(calls) && k <= |calls|
    ensures Suppression.HashView(Run(s, SweptAfter(calls, k, digest, acked)).remote) == Hashed(Mirrored(calls), digest)
       <==> forall uid :: ListedLate(s, calls, k, uid) ==> NewHashLater(s, calls, k, digest, uid)
  {
    var view := Suppression.HashView(Run(s, SweptAfter(calls, k, digest, acked)).remote);
    var mirrored := Hashed(Mirrored(calls), digest);
    forall uid
      ensures Get(view, uid) == if Lost(calls, k, s, digest, uid) then None else Get(mirrored, uid)
      ensures ListedLate(s, calls, k, uid) && !NewHashLater(s, calls, k, digest, uid)
         <==> Lost(calls, k, s, digest, uid) && Get(mirrored, uid).Some?
    {
      StoreIsMirrorWithoutLost(s, calls, k, digest, acked, uid);
    }
    hide Lost, ListedLate, NewHashLater, Suppression.HashView, Hashed, Run, SweptAfter, Mirrored, StartUp, NoReuse;
    SameMaps(view, mirrored);
  }

  /** In particular nothing is lost when the sweep comes last: it leaves exactly the mirrored objects. */
  lemma SweepSyncs(s: Cache.State, calls: seq<Call>, digest: string -> string, acked: set<string>)
    requires StartUp(s) && s.remote.Keys == s.hashes.Keys <= acked && NoReuse(calls)
    ensures Suppression.HashView(Run(s, Events(calls, digest) + [Sweep(acked)]).remote)
         == Hashed(Mirrored(calls), digest)
  {
    assert calls[..|calls|] == calls;
    assert SweptAfter(calls, |calls|, digest, acked) == Events(calls, digest) + [Sweep(acked)];
    forall uid
      ensures !ListedLate(s, calls, |calls|, uid)
    {
      if uid in Mirrored(calls) { MirroredIsPut(calls, uid); }
    }
    SweepLosesNothingIff(s, calls, |calls|, digest, acked);
  }

  lemma SameMaps<K, V>(a: map<K, V>, b: map<K, V>)
    ensures a == b <==> forall k :: Get(a, k) == Get(b, k)
  {
    if forall k :: Get(a, k) == Get(b, k) {
      forall k
        ensures k in a <==> k in b
        ensures k in a ==> a[k] == b[k]
      {
        assert Get(a, k) == Get(b, k);
      }
    }
  }

  /** The clean-up must not come first: a start-up resource that is swept before its first event is lost, for its
      unchanged add is then suppressed by the hash list. */
  lemma SweepBeforeListLosesResources(s: Cache.State, obj: Object, digest: string -> string)
    requires StartUp(s) && obj.uid in s.hashes && s.hashes[obj.uid].hash == digest(obj.content)
    ensures obj.uid !in Run(s, [Sweep({obj.uid})] + Events([AddCall(obj)], digest)).remote
  {
    var calls, acked := [AddCall(obj)], {obj.uid};
    assert SweptAfter(calls, 0, digest, acked) == [Sweep(acked)] + Events(calls, digest);
    StoreIsMirrorWithoutLost(s, calls, 0, digest, acked, obj.uid);
    assert Lost(calls, 0, s, digest, obj.uid);
  }

  // ---- The whole pipeline ----

  /** None of these uids comes to life after version c: those live at c or later are live at c. It holds for the
      uids of objects created before c, since a uid is never reused. */
  ghost predicate NoneBornAfter(h: seq<Change>, uids: set<string>, c: nat) {
    c <= |h| && forall uid :: uid in uids && LiveFrom(h, c, uid) ==> uid in Cluster(h, c)
  }

  lemma CreatedBeforeIsNotBornAfter(h: seq<Change>, uids: set<string>, c: nat)
    requires UidsNeverReused(h) && c <= |h|
    requires forall uid :: uid in uids ==> exists i :: 0 <= i < c && h[i].Put? && h[i].obj.uid == uid
    ensures NoneBornAfter(h, uids, c)
  {
    forall uid | uid in uids && LiveFrom(h, c, uid)
      ensures uid in Cluster(h, c)
    {
      var i :| 0 <= i < c && h[i].Put? && h[i].obj.uid == uid;
      var v :| c <= v <= |h| && uid in Cluster(h, v);
      if uid !in Cluster(h, c) {
        var d := DeletedBetween(h, i + 1, c, uid);
        DeadAfterGone(h, d, v, uid);
      }
    }
  }

  /** An object of the mirror that was not delivered while the watcher got hold of a cursor came to life later. */
  lemma DeliveredLate(h: seq<Change>, inputs: seq<Input>, n: nat, uid: string)
    requires Possible(h, inputs) && n <= |inputs| && Cursor(Trace(inputs[..n])).Some?
    requires uid in Mirrored(Trace(inputs).calls) && !Touched(Trace(inputs[..n]).calls, uid)
    ensures var c := Cursor(Trace(inputs[..n])).value;
            c <= |h| && LiveFrom(h, c, uid) && uid !in Cluster(h, c)
  {
    PossiblePrefix(h, inputs, n);
    MirrorAgrees(h, inputs[..n]);
    LaterPutsAreLive(h, inputs, n);
    AgentIsTrace(h, inputs);
    var first, calls := Trace(inputs[..n]).calls, Trace(inputs).calls;
    assert forall i :: 0 <= i < |first| ==> first[i] == calls[i];
    MirroredIsPut(calls, uid);
    var i :| 0 <= i < |calls| && !calls[i].DeleteCall? && calls[i].obj.uid == uid;
    assert |first| <= i;
    if uid in Mirrored(first) {
      MirroredIsPut(first, uid);
    }
  }

  /** The pipeline in any run of one watcher, with failed lists, broken streams and relists: if every send is
      acknowledged and the clean-up runs (and is acknowledged) any time after the watcher first held a cursor,
      the ROR API ends with exactly the watcher's mirror, whatever it held at start, as long as none of those uids
      comes to life only after that cursor. Whenever the watcher holds a
      cursor again, the API thus agrees with the cluster on every live object, and every other object it holds
      was deleted at a version no watch delivered. */
  lemma PipelineConverges(h: seq<Change>, inputs: seq<Input>, n: nat, k: nat, s: Cache.State, acked: set<string>,
      digest: string -> string)
    requires Possible(h, inputs) && UidsNeverReused(h)
    requires n <= |inputs| && Cursor(Trace(inputs[..n])).Some?
    requires |Trace(inputs[..n]).calls| <= k <= |Trace(inputs).calls|
    requires StartUp(s) && s.remote.Keys == s.hashes.Keys <= acked
    requires NoneBornAfter(h, s.hashes.Keys, Cursor(Trace(inputs[..n])).value)
    ensures var agent := Trace(inputs);
            var view := Suppression.HashView(Run(s, SweptAfter(agent.calls, k, digest, acked)).remote);
            && view == Hashed(Mirrored(agent.calls), digest)
            && (Cursor(agent).Some? ==>
                  && Cursor(agent).value == After(h, inputs).high <= |h|
                  && AgreesWith(view, h, After(h, inputs), digest))
  {
    var first, calls := Trace(inputs[..n]).calls, Trace(inputs).calls;
    AgentIsTrace(h, inputs);
    AgentIsTrace(h, inputs[..n]);
    LogInvHolds(h, inputs);
    LaterPutsAreLive(h, inputs, n);
    forall uid
      ensures !ListedLate(s, calls, k, uid)
    {
      if ListedLate(s, calls, k, uid) {
        if Touched(first, uid) { TouchedPrefix(first, calls[..k], uid); }
        DeliveredLate(h, inputs, n, uid);
      }
    }
    SweepLosesNothingIff(s, calls, k, digest, acked);
    if Cursor(Trace(inputs)).Some? {
      MirrorAgrees(h, inputs);
    }
  }

  /** The store has the hash of every object live at the newest version shown, and any other uid it holds belongs
      to an object whose deletion was missed. */
  ghost predicate AgreesWith(view: map<string, string>, h: seq<Change>, w: World, digest: string -> string)
    requires w.high <= |h|
  {
    var live := Cluster(h, w.high);
    && (forall uid :: uid in live ==> uid in view && view[uid] == digest(live[uid]))
    && (forall uid :: uid in view && uid !in live ==>
          exists content, s: nat, d: nat :: view[uid] == digest(content) && MissedDeletion(h, w, uid, content, s, d))
  }

  /** Without a relist the ROR API holds exactly the live objects at the cursor. */
  lemma PipelineIsExactWithoutGap(h: seq<Change>, inputs: seq<Input>, n: nat, k: nat, s: Cache.State,
      acked: set<string>, digest: string -> string)
    requires Possible(h, inputs) && NoGap(inputs) && UidsNeverReused(h)
    requires n <= |inputs| && Cursor(Trace(inputs[..n])).Some?
    requires |Trace(inputs[..n]).calls| <= k <= |Trace(inputs).calls|
    requires StartUp(s) && s.remote.Keys == s.hashes.Keys <= acked
    requires NoneBornAfter(h, s.hashes.Keys, Cursor(Trace(inputs[..n])).value)
    ensures Cursor(Trace(inputs)).Some? && Cursor(Trace(inputs)).value <= |h|
    ensures var c := Cursor(Trace(inputs)).value;
            Suppression.HashView(Run(s, SweptAfter(Trace(inputs).calls, k, digest, acked)).remote)
              == Hashed(Cluster(h, c), digest)
  {
    PipelineConverges(h, inputs, n, k, s, acked, digest);
    CursorIsKept(h, inputs, n);
    MirrorIsExactWithoutGap(h, inputs);
  }
}
