/** Hash suppression against plain forwarding. */
module Suppression {
  import opened Workqueue
  import opened HashList
  import opened ResourceCache
  import opened Replication

  /** The store as the hash list describes it. */
  function HashView(remote: Remote): map<string, string> {
    map uid | uid in remote :: remote[uid].hash
  }

  ghost predicate AllAcked(steps: seq<Step>) {
    forall i :: 0 <= i < |steps| ==> steps[i].Event? && steps[i].ok
  }

  /** The reference: send every event. */
  function Forwarded(remote: Remote, steps: seq<Step>): Remote {
    if steps == [] then remote else
    var last, r := steps[|steps| - 1], Forwarded(remote, steps[..|steps| - 1]);
    if Names(last) then Apply(r, UpdateOf(last)) else r
  }

  /** The branch that goes wrong: the store no longer holds the uid, but the hash list still has its hash, so
      the add or update is not sent. */
  predicate StaleHit(s: State, step: Step) {
    && Puts(step)
    && var res := step.input.value;
       res.uid !in s.remote && !UpdateNeeded(s.hashes, res.uid, res.hash)
  }

  ghost predicate Matches(hs: Hashes, remote: Remote) {
    forall uid :: uid in hs && uid in remote ==> hs[uid].hash == remote[uid].hash
  }

  lemma ViewOfApply(remote: Remote, u: ResourceUpdate)
    requires u.Sendable()
    ensures HashView(Apply(remote, u)) ==
            if u.action.Delete? then HashView(remote) - {u.uid} else HashView(remote)[u.uid := u.hash]
  {
  }

  lemma EventKeepsMatching(s: State, step: Step)
    requires step.Event? && step.ok && (Names(step) ==> UpdateOf(step).Sendable())
    requires Matches(s.hashes, s.remote)
    ensures Matches(Next(s, step).hashes, Next(s, step).remote)
  {
  }

  lemma EventAgainstForwarding(s: State, remote: Remote, step: Step)
    requires step.Event? && step.ok && (Names(step) ==> UpdateOf(step).Sendable())
    requires Matches(s.hashes, s.remote) && HashView(s.remote) == HashView(remote)
    ensures HashView(Next(s, step).remote) == HashView(if Names(step) then Apply(remote, UpdateOf(step)) else remote)
       <==> !StaleHit(s, step)
  {
    if Names(step) {
      var u, view := UpdateOf(step), HashView(s.remote);
      ViewOfApply(remote, u);
      ViewOfApply(s.remote, u);
      if Puts(step) && !UpdateNeeded(s.hashes, u.uid, u.hash) {
        assert Next(s, step).remote == s.remote;
        assert u.uid in s.remote ==> view[u.uid := u.hash] == view;
        assert u.uid !in s.remote ==> u.uid !in view && u.uid in view[u.uid := u.hash];
      } else {
        assert Next(s, step).remote == Apply(s.remote, u);
      }
    }
  }

  ghost predicate SameView(s: State, steps: seq<Step>) {
    HashView(Run(s, steps).remote) == HashView(Forwarded(s.remote, steps))
  }

  ghost predicate HitsStaleAt(s: State, steps: seq<Step>, n: nat)
    requires n < |steps|
  {
    StaleHit(Run(s, steps[..n]), steps[n])
  }

  lemma {:induction false} SameUntilStaleHit(s: State, steps: seq<Step>)
    requires StartUp(s) && KnownActions(steps) && AllAcked(steps)
    requires forall n :: 0 <= n < |steps| ==> !HitsStaleAt(s, steps, n)
    ensures SameView(s, steps) && Matches(Run(s, steps).hashes, Run(s, steps).remote)
  {
    if steps != [] {
      var n := |steps| - 1;
      var init := steps[..n];
      forall m | 0 <= m < n
        ensures !HitsStaleAt(s, init, m)
      {
        assert init[..m] == steps[..m] && !HitsStaleAt(s, steps, m);
      }
      SameUntilStaleHit(s, init);
      assert !HitsStaleAt(s, steps, n);
      EventKeepsMatching(Run(s, init), steps[n]);
      EventAgainstForwarding(Run(s, init), Forwarded(s.remote, init), steps[n]);
    }
  }

  lemma {:induction false} NoStaleHitWhileSame(s: State, steps: seq<Step>)
    requires StartUp(s) && KnownActions(steps) && AllAcked(steps)
    requires forall n :: 0 <= n <= |steps| ==> SameView(s, steps[..n])
    ensures forall n :: 0 <= n < |steps| ==> !HitsStaleAt(s, steps, n)
    ensures Matches(Run(s, steps).hashes, Run(s, steps).remote)
  {
    if steps != [] {
      var n := |steps| - 1;
      var init := steps[..n];
      forall m | 0 <= m <= n
        ensures SameView(s, init[..m])
      {
        assert init[..m] == steps[..m];
      }
      NoStaleHitWhileSame(s, init);
      assert steps[..|steps|] == steps && SameView(s, steps[..n]) && SameView(s, steps[..|steps|]);
      EventKeepsMatching(Run(s, init), steps[n]);
      EventAgainstForwarding(Run(s, init), Forwarded(s.remote, init), steps[n]);
      forall m | 0 <= m < n
        ensures !HitsStaleAt(s, steps, m)
      {
        assert init[..m] == steps[..m] && !HitsStaleAt(s, init, m);
      }
    }
  }

  /** With every call acknowledged, suppression and forwarding leave the same hashes after every prefix of the
      events exactly when no add or update meets a stale hash. */
  lemma SuppressionRefinesForwarding(s: State, steps: seq<Step>)
    requires StartUp(s) && KnownActions(steps) && AllAcked(steps)
    ensures (forall n :: 0 <= n <= |steps| ==> SameView(s, steps[..n]))
       <==> (forall n :: 0 <= n < |steps| ==> !HitsStaleAt(s, steps, n))
  {
    if forall n :: 0 <= n <= |steps| ==> SameView(s, steps[..n]) {
      NoStaleHitWhileSame(s, steps);
    } else if forall n :: 0 <= n < |steps| ==> !HitsStaleAt(s, steps, n) {
      forall n | 0 <= n <= |steps|
        ensures SameView(s, steps[..n])
      {
        forall m | 0 <= m < n
          ensures !HitsStaleAt(s, steps[..n], m)
        {
          assert steps[..n][..m] == steps[..m] && !HitsStaleAt(s, steps, m);
        }
        SameUntilStaleHit(s, steps[..n]);
      }
    }
  }

  /** No add or update of a uid follows a delete of it. */
  ghost predicate NoReappearance(steps: seq<Step>) {
    forall i, j :: 0 <= i < j < |steps| && Names(steps[i]) && steps[i].action.Delete? && Puts(steps[j]) ==>
      UpdateOf(steps[i]).uid != UpdateOf(steps[j]).uid
  }

  lemma {:induction false} DeletedByAnEvent(s: State, steps: seq<Step>, uid: string)
    requires AllAcked(steps) && uid in DeletedOnce(s, steps)
    ensures exists i :: 0 <= i < |steps| && Names(steps[i]) && steps[i].action.Delete? && UpdateOf(steps[i]).uid == uid
  {
    var n := |steps| - 1;
    var init := steps[..n];
    if uid in DeletedOnce(s, init) {
      DeletedByAnEvent(s, init, uid);
      var i :| 0 <= i < n && Names(init[i]) && init[i].action.Delete? && UpdateOf(init[i]).uid == uid;
      assert steps[i] == init[i];
    } else {
      assert UpdateOf(steps[n]).uid == uid;
    }
  }

  lemma NoStaleHit(s: State, steps: seq<Step>, n: nat)
    requires StartUp(s) && KnownActions(steps) && AllAcked(steps) && NoReappearance(steps) && n < |steps|
    ensures !StaleHit(Run(s, steps[..n]), steps[n])
  {
    var init := steps[..n];
    AgreeInv(s, init);
    if StaleHit(Run(s, init), steps[n]) {
      var uid := steps[n].input.value.uid;
      assert uid in DeletedOnce(s, init);
      DeletedByAnEvent(s, init, uid);
    }
  }

  /** Equal hashes of one uid mean equal content, over the start-up store and all events. */
  ghost predicate HashDecides(start: Remote, from: set<ResourceUpdate>) {
    && (forall u, v :: u in from && v in from && u.uid == v.uid && u.hash == v.hash ==> u.body == v.body)
    && (forall u :: u in from && u.uid in start && u.hash == start[u.uid].hash ==> u.body == start[u.uid].body)
  }

  lemma {:induction false} ForwardedFrom(start: Remote, steps: seq<Step>)
    requires KnownActions(steps)
    ensures StoredFrom(Forwarded(start, steps), start, Handed(steps))
  {
    if steps != [] {
      var init, last := steps[..|steps| - 1], steps[|steps| - 1];
      ForwardedFrom(start, init);
      var before, from := Forwarded(start, init), Handed(steps);
      if Names(last) {
        var u := UpdateOf(last);
        assert u in from && u.Sendable();
        assert StoredFrom(before, start, from);
        assert [u][..0] == [];
        ReplayStoredFrom(before, [u], start, from);
        assert Replay(before, [u]) == Apply(before, u);
      }
    }
  }

  /** If every call succeeds and no uid reappears after its delete, suppression leaves the store that sending
      every event would, with the same hashes always and the same contents when the hash decides them. */
  lemma SuppressionIsInvisible(s: State, steps: seq<Step>)
    requires StartUp(s) && KnownActions(steps) && AllAcked(steps) && NoReappearance(steps)
    ensures HashView(Run(s, steps).remote) == HashView(Forwarded(s.remote, steps))
    ensures HashDecides(s.remote, Handed(steps)) ==> Run(s, steps).remote == Forwarded(s.remote, steps)
  {
    forall n | 0 <= n < |steps|
      ensures !HitsStaleAt(s, steps, n)
    {
      NoStaleHit(s, steps, n);
    }
    SameUntilStaleHit(s, steps);
    if HashDecides(s.remote, Handed(steps)) {
      var kept, sent := Run(s, steps).remote, Forwarded(s.remote, steps);
      Provenance(s, steps);
      ForwardedFrom(s.remote, steps);
      assert kept.Keys == HashView(kept).Keys == HashView(sent).Keys == sent.Keys;
      forall uid | uid in kept
        ensures kept[uid] == sent[uid]
      {
        assert kept[uid].hash == HashView(kept)[uid] == HashView(sent)[uid] == sent[uid].hash;
      }
    }
  }
}
