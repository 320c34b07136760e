/** The one-shot clean-up: mark while it is pending, sweep once. */
module MarkAndSweep {
  import opened Workqueue
  import opened HashList
  import opened ResourceCache
  import opened Drain
  import opened Replication

  /** The uids with an add or update among these steps. */
  function Seen(steps: seq<Step>): set<string> {
    if steps == [] then {} else
    var last := steps[|steps| - 1];
    Seen(steps[..|steps| - 1]) + if Puts(last) then {last.input.value.uid} else {}
  }

  ghost predicate NoSweep(steps: seq<Step>) {
    forall i :: 0 <= i < |steps| ==> !steps[i].Sweep?
  }

  lemma StepKeepsPending(s: State, step: Step)
    ensures Next(s, step).cleanupRunning <==> s.cleanupRunning && !step.Sweep?
  {
    hide Drained;
    if step.DrainTick? {
      DrainEffect(s, step.acks, step.tickedAt);
    }
  }

  /** The clean-up is pending exactly until the first sweep. */
  lemma {:induction false} PendingUntilFirstSweep(s: State, steps: seq<Step>)
    requires s.cleanupRunning
    ensures Run(s, steps).cleanupRunning <==> NoSweep(steps)
  {
    hide Next;
    if steps != [] {
      var init, last := steps[..|steps| - 1], steps[|steps| - 1];
      PendingUntilFirstSweep(s, init);
      StepKeepsPending(Run(s, init), last);
      assert NoSweep(steps) <==> NoSweep(init) && !last.Sweep?;
    }
  }

  lemma {:induction false} HashesAfterInactive(hs: Hashes, us: seq<ResourceUpdate>)
    ensures InactiveUids(HashesAfter(hs, us)) == InactiveUids(hs)
  {
    if us != [] {
      HashesAfterInactive(hs, us[..|us| - 1]);
    }
  }

  lemma StepMarks(s: State, step: Step)
    requires s.cleanupRunning && !step.Sweep?
    ensures InactiveUids(Next(s, step).hashes) == InactiveUids(s.hashes) - if Puts(step) then {step.input.value.uid} else {}
  {
    if step.DrainTick? {
      hide Drained;
      DrainEffect(s, step.acks, step.tickedAt);
      HashesAfterInactive(s.hashes, Updates(s.queue[..AckedUpTo(s.queue, step.acks, 0)]));
    }
  }

  /** Before the sweep the inactive uids are the start-up uids without an add or update so far. */
  lemma {:induction false} InactiveBeforeSweep(s: State, steps: seq<Step>)
    requires StartUp(s) && NoSweep(steps)
    ensures InactiveUids(Run(s, steps).hashes) == s.hashes.Keys - Seen(steps)
  {
    if steps != [] {
      var init, last := steps[..|steps| - 1], steps[|steps| - 1];
      InactiveBeforeSweep(s, init);
      PendingUntilFirstSweep(s, init);
      StepMarks(Run(s, init), last);
    } else {
      assert InactiveUids(s.hashes) == s.hashes.Keys;
    }
  }

  /** The first sweep removes from the store exactly the start-up uids that had no add or update before it and
      whose delete is acknowledged; it touches nothing else, and every later sweep changes nothing. */
  lemma SweepDeletesExactlyTheUnseen(s: State, before: seq<Step>, acked: set<string>, after: seq<Step>, again: set<string>)
    requires StartUp(s) && NoSweep(before)
    ensures var pre := Run(s, before);
            Run(s, before + [Sweep(acked)]) == pre.(
              cleanupRunning := false,
              remote := pre.remote - ((s.hashes.Keys - Seen(before)) * acked))
    ensures var post := Run(s, before + [Sweep(acked)] + after);
            Next(post, Sweep(again)) == post
  {
    InactiveBeforeSweep(s, before);
    PendingUntilFirstSweep(s, before);
    RunExtends(s, before, Sweep(acked));
    var steps := before + [Sweep(acked)] + after;
    assert steps[|before|].Sweep?;
    PendingUntilFirstSweep(s, steps);
  }

  lemma {:induction false} SeenHanded(steps: seq<Step>, u: ResourceUpdate)
    requires u in Handed(steps) && !u.action.Delete?
    ensures u.uid in Seen(steps)
  {
    var init := steps[..|steps| - 1];
    if u in Handed(init) {
      SeenHanded(init, u);
    }
  }

  lemma {:induction false} SeenGrows(steps: seq<Step>, i: nat)
    requires i <= |steps|
    ensures Seen(steps[..i]) <= Seen(steps)
  {
    if i < |steps| {
      SeenGrows(steps[..|steps| - 1], i);
      assert steps[..|steps| - 1][..i] == steps[..i];
    } else {
      assert steps[..i] == steps;
    }
  }

  lemma {:induction false} ReplayKeys(remote: Remote, us: seq<ResourceUpdate>, uid: string)
    requires uid in Replay(remote, us) && uid !in remote
    ensures exists u :: u in us && u.uid == uid && !u.action.Delete?
  {
    var init := us[..|us| - 1];
    if uid in Replay(remote, init) {
      ReplayKeys(remote, init, uid);
    } else {
      assert us[|us| - 1].uid == uid;
    }
  }

  /** A key that a step puts into the store comes from an add or update of the run. */
  lemma StoredByStepWasSeen(s: State, init: seq<Step>, last: Step, uid: string)
    requires s.queue == []
    requires uid in Run(s, init + [last]).remote && uid !in Run(s, init).remote
    ensures uid in Seen(init + [last])
  {
    RunExtends(s, init, last);
    assert (init + [last])[..|init|] == init;
    if last.DrainTick? {
      hide Drained, StoredFrom;
      var before := Run(s, init);
      DrainEffect(before, last.acks, last.tickedAt);
      var sent := Updates(before.queue[..AckedUpTo(before.queue, last.acks, 0)]);
      ReplayKeys(before.remote, sent, uid);
      var i :| 0 <= i < |sent| && sent[i].uid == uid && !sent[i].action.Delete?;
      assert before.queue[i] in before.queue;
      Provenance(s, init);
      SeenHanded(init, sent[i]);
    }
  }

  /** If every delete of the sweep is acknowledged, each start-up uid the store still holds, then or later,
      had an add or update since start. */
  lemma {:induction false} SurvivorsWereSeen(s: State, before: seq<Step>, acked: set<string>, after: seq<Step>, uid: string)
    requires StartUp(s) && NoSweep(before)
    requires s.hashes.Keys - Seen(before) <= acked
    requires uid in s.hashes && uid in Run(s, before + [Sweep(acked)] + after).remote
    ensures uid in Seen(before + [Sweep(acked)] + after)
  {
    var swept := before + [Sweep(acked)];
    var steps := swept + after;
    if after == [] {
      assert steps == swept;
      SweepDeletesExactlyTheUnseen(s, before, acked, [], {});
      SeenGrows(steps, |before|);
      assert steps[..|before|] == before;
    } else {
      var init, last := after[..|after| - 1], after[|after| - 1];
      assert steps == swept + init + [last];
      assert steps[..|steps| - 1] == swept + init;
      if uid in Run(s, swept + init).remote {
        SurvivorsWereSeen(s, before, acked, init, uid);
      } else {
        StoredByStepWasSeen(s, swept + init, last, uid);
      }
    }
  }
}
