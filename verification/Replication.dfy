/** Properties of whole runs of the resource cache: any order of events, drains and sweeps, any outcome of
    every call. */
module Replication {
  import opened Common
  import opened Workqueue
  import opened HashList
  import opened ResourceCache
  import opened Drain

  datatype Step =
    | Event(action: Action, input: Option<Resource>, ok: bool, now: int)
    | DrainTick(acks: seq<bool>, tickedAt: int)
    | Sweep(acked: set<string>)

  function Next(s: State, step: Step): State {
    match step
    case Event(action, input, ok, now) => Delivered(s, action, input, ok, now)
    case DrainTick(acks, now) => Drained(s, acks, now)
    case Sweep(acked) => Swept(s, acked)
  }

  function Run(s: State, steps: seq<Step>): State {
    if steps == [] then s else Next(Run(s, steps[..|steps| - 1]), steps[|steps| - 1])
  }

  lemma RunExtends(s: State, steps: seq<Step>, step: Step)
    ensures Run(s, steps + [step]) == Next(Run(s, steps), step)
  {
    assert (steps + [step])[..|steps|] == steps;
  }

  /** An event that names a resource; the handlers use the three known actions only. */
  predicate Names(step: Step) {
    step.Event? && step.input.Some?
  }

  predicate Puts(step: Step) {
    Names(step) && !step.action.Delete?
  }

  function UpdateOf(step: Step): ResourceUpdate
    requires Names(step)
  {
    ToUpdate(step.input.value, step.action)
  }

  ghost predicate KnownActions(steps: seq<Step>) {
    forall i :: 0 <= i < |steps| && Names(steps[i]) ==> UpdateOf(steps[i]).Sendable()
  }

  /** Every hash-list entry is the hash of what the store holds, except for the uids in `but`. */
  ghost predicate Agree(hs: Hashes, remote: Remote, but: set<string>) {
    forall uid :: uid in hs && uid !in but ==> uid in remote && remote[uid].hash == hs[uid].hash
  }

  /** The state MustInit leaves: the hash list describes the store, nothing is queued, nothing is active. */
  ghost predicate StartUp(s: State) {
    && s.queue == [] && s.cleanupRunning
    && Agree(s.hashes, s.remote, {})
    && forall uid :: uid in s.hashes ==> !s.hashes[uid].active
  }

  // ---- Where queued and stored values come from ----

  function Handed(steps: seq<Step>): set<ResourceUpdate> {
    if steps == [] then {} else
    var last := steps[|steps| - 1];
    Handed(steps[..|steps| - 1]) + if Names(last) then {UpdateOf(last)} else {}
  }

  ghost predicate StoredFrom(remote: Remote, start: Remote, from: set<ResourceUpdate>) {
    forall uid :: uid in remote ==>
      (uid in start && start[uid] == remote[uid]) ||
      exists u :: u in from && u.uid == uid && Content(u) == Some(remote[uid])
  }

  lemma {:induction false} ReplayStoredFrom(remote: Remote, us: seq<ResourceUpdate>, start: Remote, from: set<ResourceUpdate>)
    requires StoredFrom(remote, start, from)
    requires forall u :: u in us ==> u in from
    ensures StoredFrom(Replay(remote, us), start, from)
  {
    if us != [] {
      ReplayStoredFrom(remote, us[..|us| - 1], start, from);
      var before, u := Replay(remote, us[..|us| - 1]), us[|us| - 1];
      forall uid | uid in Apply(before, u)
        ensures (uid in start && start[uid] == Apply(before, u)[uid]) ||
                exists v :: v in from && v.uid == uid && Content(v) == Some(Apply(before, u)[uid])
      {
        if uid == u.uid && u.Sendable() {
          assert u in from && Content(u) == Some(Apply(before, u)[uid]);
        } else {
          assert Apply(before, u)[uid] == before[uid];
        }
      }
    }
  }

  lemma QueueAfterDrain(s: State, acks: seq<bool>, now: int)
    ensures forall e :: e in Drained(s, acks, now).queue ==> exists d :: d in s.queue && d.update == e.update
  {
    DrainEffect(s, acks, now);
    var q, q' := s.queue, Drained(s, acks, now).queue;
    var k := AckedUpTo(q, acks, 0);
    var rest := EmptyUids(q[..k]) + q[k..];
    forall e | e in q'
      ensures exists d :: d in q && d.update == e.update
    {
      if k < |q| && e.update == q[k].update {
        assert q[k] in q;
      } else {
        assert e in rest;
        assert e in q;
      }
    }
  }

  lemma EventStoredFrom(s: State, e: Step, start: Remote, from: set<ResourceUpdate>)
    requires Names(e) && UpdateOf(e) in from && StoredFrom(s.remote, start, from)
    ensures StoredFrom(Next(s, e).remote, start, from)
  {
    var u := UpdateOf(e);
    assert [u][..0] == [];
    assert Replay(s.remote, [u]) == Apply(s.remote, u);
    ReplayStoredFrom(s.remote, [u], start, from);
  }

  lemma DrainStoredFrom(s: State, acks: seq<bool>, now: int, start: Remote, from: set<ResourceUpdate>)
    requires StoredFrom(s.remote, start, from)
    requires forall e :: e in s.queue ==> e.update in from
    ensures StoredFrom(Drained(s, acks, now).remote, start, from)
    ensures forall e :: e in Drained(s, acks, now).queue ==> e.update in from
  {
    hide Drained, StoredFrom;
    DrainEffect(s, acks, now);
    QueueAfterDrain(s, acks, now);
    var done := s.queue[..AckedUpTo(s.queue, acks, 0)];
    forall u | u in Updates(done)
      ensures u in from
    {
      var i :| 0 <= i < |done| && u == done[i].update;
      assert s.queue[i] in s.queue;
    }
    ReplayStoredFrom(s.remote, Updates(done), start, from);
  }

  lemma StoredFromGrows(remote: Remote, start: Remote, from: set<ResourceUpdate>, from': set<ResourceUpdate>)
    requires StoredFrom(remote, start, from) && from <= from'
    ensures StoredFrom(remote, start, from')
  {
  }

  lemma SweepStoredFrom(s: State, acked: set<string>, start: Remote, from: set<ResourceUpdate>)
    requires StoredFrom(s.remote, start, from)
    ensures StoredFrom(Swept(s, acked).remote, start, from)
  {
  }

  lemma {:induction false} Provenance(s: State, steps: seq<Step>)
    requires s.queue == []
    ensures forall e :: e in Run(s, steps).queue ==> e.update in Handed(steps)
    ensures StoredFrom(Run(s, steps).remote, s.remote, Handed(steps))
  {
    if steps != [] {
      hide StoredFrom, Drained, Swept;
      var init, last := steps[..|steps| - 1], steps[|steps| - 1];
      Provenance(s, init);
      var before := Run(s, init);
      StoredFromGrows(before.remote, s.remote, Handed(init), Handed(steps));
      match last
      case Event(_, _, _, _) => if Names(last) { EventStoredFrom(before, last, s.remote, Handed(steps)); }
      case DrainTick(acks, now) => DrainStoredFrom(before, acks, now, s.remote, Handed(steps));
      case Sweep(acked) => SweepStoredFrom(before, acked, s.remote, Handed(steps));
    }
  }

  // ---- Cache agreement ----

  function DeletesIn(q: seq<Entry>, k: nat): set<string>
    requires k <= |q|
  {
    if k == 0 then {} else
    DeletesIn(q, k - 1) + if q[k - 1].update.action.Delete? then {q[k - 1].update.uid} else {}
  }

  /** The uids for which the API acknowledges a delete in this step. */
  function AckedDeletes(s: State, step: Step): set<string> {
    match step
    case Event(action, input, ok, _) => if action.Delete? && input.Some? && ok then {input.value.uid} else {}
    case DrainTick(acks, _) => DeletesIn(s.queue, AckedUpTo(s.queue, acks, 0))
    case Sweep(acked) => if s.cleanupRunning then InactiveUids(s.hashes) * acked else {}
  }

  function DeletedOnce(s: State, steps: seq<Step>): set<string> {
    if steps == [] then {} else
    var init := steps[..|steps| - 1];
    DeletedOnce(s, init) + AckedDeletes(Run(s, init), steps[|steps| - 1])
  }

  lemma RetriedAgrees(s: State, u: ResourceUpdate, but: set<string>)
    requires Agree(s.hashes, s.remote, but) && u.Sendable()
    ensures Agree(Retried(s, u).hashes, Retried(s, u).remote, but + if u.action.Delete? then {u.uid} else {})
  {
  }

  lemma SetPlusIsAssociative<T>(a: set<T>, b: set<T>, c: set<T>)
    ensures a + b + c == a + (b + c)
  {
  }

  lemma {:induction false} AgreeAfterRetries(s: State, i: nat, but: set<string>)
    requires i <= |s.queue|
    requires Agree(s.hashes, s.remote, but)
    requires forall e :: e in s.queue ==> e.update.Sendable()
    ensures Agree(Reached(s, i).hashes, Reached(s, i).remote, but + DeletesIn(s.queue, i))
  {
    hide Agree, Reached, Retried;
    if i == 0 {
      NothingReached(s);
      assert but + DeletesIn(s.queue, 0) == but;
    } else {
      AgreeAfterRetries(s, i - 1, but);
      RetryReaches(s, i - 1);
      var u, deleted := s.queue[i - 1].update, DeletesIn(s.queue, i - 1);
      assert s.queue[i - 1] in s.queue;
      RetriedAgrees(Reached(s, i - 1), u, but + deleted);
      SetPlusIsAssociative(but, deleted, if u.action.Delete? then {u.uid} else {});
    }
  }

  lemma DrainAgrees(s: State, acks: seq<bool>, now: int, but: set<string>)
    requires Agree(s.hashes, s.remote, but)
    requires forall e :: e in s.queue ==> e.update.Sendable()
    ensures var s' := Drained(s, acks, now);
            && (forall e :: e in s'.queue ==> e.update.Sendable())
            && Agree(s'.hashes, s'.remote, but + DeletesIn(s.queue, AckedUpTo(s.queue, acks, 0)))
  {
    hide Agree, Drained;
    DrainEffect(s, acks, now);
    QueueAfterDrain(s, acks, now);
    AgreeAfterRetries(s, AckedUpTo(s.queue, acks, 0), but);
  }

  lemma StepAgrees(s: State, step: Step, but: set<string>)
    requires Agree(s.hashes, s.remote, but)
    requires forall e :: e in s.queue ==> e.update.Sendable()
    requires Names(step) ==> UpdateOf(step).Sendable()
    ensures forall e :: e in Next(s, step).queue ==> e.update.Sendable()
    ensures Agree(Next(s, step).hashes, Next(s, step).remote, but + AckedDeletes(s, step))
  {
    hide Drained;
    if step.DrainTick? {
      hide Agree;
      DrainAgrees(s, step.acks, step.tickedAt, but);
    }
  }

  lemma {:induction false} AgreeInv(s: State, steps: seq<Step>)
    requires s.queue == [] && Agree(s.hashes, s.remote, {}) && KnownActions(steps)
    ensures forall e :: e in Run(s, steps).queue ==> e.update.Sendable()
    ensures Agree(Run(s, steps).hashes, Run(s, steps).remote, DeletedOnce(s, steps))
  {
    hide Agree, Next, AckedDeletes;
    if steps != [] {
      var init, last := steps[..|steps| - 1], steps[|steps| - 1];
      assert Names(last) ==> UpdateOf(last).Sendable();
      AgreeInv(s, init);
      StepAgrees(Run(s, init), last, DeletedOnce(s, init));
    }
  }

  /** Over every run, a hash-list entry is the hash the store holds unless a delete of that uid was once
      acknowledged, and every stored value was there at start or was handed over by an event for its uid. */
  lemma CacheAgreement(s: State, steps: seq<Step>)
    requires StartUp(s) && KnownActions(steps)
    ensures Agree(Run(s, steps).hashes, Run(s, steps).remote, DeletedOnce(s, steps))
    ensures StoredFrom(Run(s, steps).remote, s.remote, Handed(steps))
  {
    AgreeInv(s, steps);
    Provenance(s, steps);
  }

  /** So a later acknowledged add or update heals the store, whatever failed before: the store then holds its
      hash, unless the uid was once deleted. */
  lemma AcknowledgedEventHeals(s: State, steps: seq<Step>, e: Step)
    requires StartUp(s) && KnownActions(steps + [e])
    requires Puts(e) && e.ok
    ensures var res, after := e.input.value, Run(s, steps + [e]).remote;
            res.uid !in DeletedOnce(s, steps) ==> res.uid in after && after[res.uid].hash == res.hash
  {
    assert (steps + [e])[..|steps|] == steps && (steps + [e])[|steps|] == e;
    AgreeInv(s, steps + [e]);
    assert DeletedOnce(s, steps + [e]) == DeletedOnce(s, steps);
  }

  // ---- What the agent does not promise ----

  /** A drain leaves a uid as its last acknowledged entry says, so it changes the store there exactly when there
      is such an entry and its content is not what the store already holds. */
  lemma DrainOverwritesIff(s: State, acks: seq<bool>, now: int, uid: string)
    requires forall e :: e in s.queue ==> e.update.Sendable()
    ensures var acked := Updates(s.queue[..AckedUpTo(s.queue, acks, 0)]);
            var i, after := LastIndex(acked, uid), Get(Drained(s, acks, now).remote, uid);
            && after == (if i < 0 then Get(s.remote, uid) else Content(acked[i]))
            && (after == Get(s.remote, uid) <==> i < 0 || Content(acked[i]) == Get(s.remote, uid))
  {
    hide Drained;
    DrainEffect(s, acks, now);
    var k := AckedUpTo(s.queue, acks, 0);
    var acked := Updates(s.queue[..k]);
    forall u | u in acked
      ensures u.Sendable()
    {
      var j :| 0 <= j < |acked| && acked[j] == u;
      assert s.queue[j] in s.queue;
    }
    ReplayAt(s.remote, acked, uid);
  }

  /** A failed update, then an event that leaves the queue alone, then a drain: the old update wins. */
  lemma FailedUpdateWins(s: State, old': Resource, event: Step)
    requires s.queue == [] && UpdateNeeded(s.hashes, old'.uid, old'.hash)
    requires var failed := Next(s, Event(Update, Some(old'), false, 0)); Next(failed, event).queue == failed.queue
    ensures var steps := [Event(Update, Some(old'), false, 0), event, DrainTick([true], 2)];
            Get(Run(s, steps).remote, old'.uid) == Some(Stored(old'.hash, old'.body))
  {
    var a, c, u := Event(Update, Some(old'), false, 0), DrainTick([true], 2), ToUpdate(old', Update);
    assert Next(s, a).queue == [Entry(0, 0, u)];
    ThreeSteps(s, a, event, c);
    LoneRetryWins(Next(Next(s, a), event), u);
  }

  lemma LoneRetryWins(s: State, u: ResourceUpdate)
    requires s.queue == [Entry(0, 0, u)] && u.Sendable()
    ensures Get(Drained(s, [true], 2).remote, u.uid) == Content(u)
  {
    assert AckedUpTo(s.queue, [true], 0) == 1 && Updates(s.queue[..1]) == [u];
    hide Drained, AckedUpTo, Updates;
    DrainOverwritesIff(s, [true], 2, u.uid);
  }

  lemma ThreeSteps(s: State, a: Step, b: Step, c: Step)
    ensures Run(s, [a, b]) == Next(Next(s, a), b)
    ensures Run(s, [a, b, c]) == Next(Next(Next(s, a), b), c)
  {
    hide Next;
    assert [a, b, c][..2] == [a, b] && [a, b][..1] == [a] && [a][..0] == [];
    assert Run(s, [a, b]) == Next(Run(s, [a]), b);
  }

  /** A queued older update can overwrite a newer one that was sent. */
  lemma QueuedUpdateCanOverwriteNewer(s: State, old': Resource, new': Resource)
    requires s.queue == [] && old'.uid == new'.uid
    requires UpdateNeeded(s.hashes, old'.uid, old'.hash)
    ensures var failed, newer := Event(Update, Some(old'), false, 0), Event(Update, Some(new'), true, 1);
            Get(Run(s, [failed, newer, DrainTick([true], 2)]).remote, new'.uid) == Some(Stored(old'.hash, old'.body))
  {
    FailedUpdateWins(s, old', Event(Update, Some(new'), true, 1));
  }

  /** It can even undo a delete that was acknowledged. */
  lemma QueuedUpdateCanUndoDelete(s: State, old': Resource, gone: Resource)
    requires s.queue == [] && old'.uid == gone.uid
    requires UpdateNeeded(s.hashes, old'.uid, old'.hash)
    ensures var failed, delete := Event(Update, Some(old'), false, 0), Event(Delete, Some(gone), true, 1);
            && gone.uid !in Run(s, [failed, delete]).remote
            && Get(Run(s, [failed, delete, DrainTick([true], 2)]).remote, gone.uid)
            == Some(Stored(old'.hash, old'.body))
  {
    var failed, delete := Event(Update, Some(old'), false, 0), Event(Delete, Some(gone), true, 1);
    ThreeSteps(s, failed, delete, DrainTick([true], 2));
    FailedUpdateWins(s, old', delete);
  }

  // ---- No pending uid is lost ----

  ghost predicate Queued(q: seq<Entry>, uid: string) {
    exists i :: 0 <= i < |q| && q[i].update.uid == uid
  }

  ghost predicate SendFails(s: State, step: Step, uid: string) {
    && Names(step) && UpdateOf(step).uid == uid && CallFails(UpdateOf(step), step.ok)
    && (Puts(step) ==> UpdateNeeded(s.hashes, uid, UpdateOf(step).hash))
  }

  ghost predicate RetryAcked(s: State, step: Step, uid: string) {
    step.DrainTick? && exists i :: 0 <= i < AckedUpTo(s.queue, step.acks, 0) && s.queue[i].update.uid == uid
  }

  lemma AddedKeepsQueued(q: seq<Entry>, u: ResourceUpdate, now: int, uid: string)
    ensures Queued(Added(q, u, now), u.uid)
    ensures Queued(q, uid) ==> Queued(Added(q, u, now), uid)
  {
    var q' := Added(q, u, now);
    assert q'[if Position(q, u.uid) > 0 then Position(q, u.uid) else |q|].update == u;
    if Queued(q, uid) {
      var i :| 0 <= i < |q| && q[i].update.uid == uid;
      assert q'[i].update.uid == uid;
    }
  }

  lemma DrainKeepsQueued(s: State, acks: seq<bool>, now: int, uid: string)
    requires Queued(s.queue, uid)
    ensures Queued(Drained(s, acks, now).queue, uid)
         || exists i :: 0 <= i < AckedUpTo(s.queue, acks, 0) && s.queue[i].update.uid == uid
  {
    hide Drained, Added, AckedUpTo;
    DrainEffect(s, acks, now);
    var i :| 0 <= i < |s.queue| && s.queue[i].update.uid == uid;
    var k := AckedUpTo(s.queue, acks, 0);
    if i >= k {
      var kept := EmptyUids(s.queue[..k]);
      var rest := kept + s.queue[k..];
      assert rest[|kept| + i - k].update.uid == uid;
      AddedKeepsQueued(rest, s.queue[k].update, now, uid);
    }
  }

  lemma StepKeepsQueued(s: State, step: Step, uid: string)
    requires Queued(s.queue, uid)
    ensures Queued(Next(s, step).queue, uid) || RetryAcked(s, step, uid)
  {
    hide Queued, Drained;
    match step
    case Event(_, _, _, now) =>
      if Names(step) { AddedKeepsQueued(s.queue, UpdateOf(step), now, uid); }
    case DrainTick(acks, now) => DrainKeepsQueued(s, acks, now, uid);
    case Sweep(_) =>
  }

  /** After a failed send the uid stays queued until a retry for it is acknowledged. */
  lemma {:induction false} NoPendingUidIsLost(s: State, steps: seq<Step>, i: nat, uid: string)
    requires i < |steps| && SendFails(Run(s, steps[..i]), steps[i], uid)
    ensures Queued(Run(s, steps).queue, uid)
         || exists m :: i < m < |steps| && RetryAcked(Run(s, steps[..m]), steps[m], uid)
  {
    var n := |steps| - 1;
    var init := steps[..n];
    if i == n {
      AddedKeepsQueued(Run(s, init).queue, UpdateOf(steps[i]), steps[i].now, uid);
    } else {
      assert init[..i] == steps[..i];
      NoPendingUidIsLost(s, init, i, uid);
      if Queued(Run(s, init).queue, uid) {
        StepKeepsQueued(Run(s, init), steps[n], uid);
        assert RetryAcked(Run(s, init), steps[n], uid) ==> RetryAcked(Run(s, steps[..n]), steps[n], uid);
      } else {
        var m :| i < m < n && RetryAcked(Run(s, init[..m]), init[m], uid);
        assert init[..m] == steps[..m] && init[m] == steps[m];
      }
    }
  }
}
