/** The log of the watcher's handler calls over any run, with failed lists, broken streams and relists. */
module CallLog {
  import opened Common
  import opened Watcher
  import opened Mirror

  predicate Touched(calls: seq<Call>, uid: string) {
    exists i :: 0 <= i < |calls| && calls[i].obj.uid == uid
  }

  /** No add or update call follows a delete call for the same uid. */
  ghost predicate NoReuse(calls: seq<Call>) {
    forall i, j :: 0 <= i < j < |calls| && calls[i].DeleteCall? && !calls[j].DeleteCall? ==>
      calls[i].obj.uid != calls[j].obj.uid
  }

  /** Kubernetes never gives a uid to a second object. */
  ghost predicate UidsNeverReused(h: seq<Change>) {
    forall i, j :: 0 <= i < j < |h| && h[i].Gone? && h[j].Put? ==> h[i].uid != h[j].obj.uid
  }

  lemma {:induction false} DeadAfterGone(h: seq<Change>, d: nat, v: nat, uid: string)
    requires UidsNeverReused(h) && 0 < d <= v <= |h| && h[d - 1] == Gone(uid)
    ensures uid !in Cluster(h, v)
  {
    if d < v {
      DeadAfterGone(h, d, v - 1, uid);
    }
  }

  /** A watch delivered the version that deleted this uid. */
  ghost predicate CoveredGone(h: seq<Change>, w: World, uid: string) {
    exists d :: d in w.covered && 0 < d <= w.high <= |h| && h[d - 1] == Gone(uid)
  }

  // ---- What one answer adds ----

  /** A new delete call stems from the version just covered, any other new call is for a live object. */
  ghost predicate Witnessed(h: seq<Change>, w: World, call: Call)
    requires w.high <= |h|
  {
    if call.DeleteCall? then CoveredGone(h, w, call.obj.uid) else call.obj.uid in Cluster(h, w.high)
  }

  lemma PageAdds(h: seq<Change>, w: World, items: seq<Object>, v: nat, cont: string)
    requires Inv(h, w) && Gives(h, w, ListPage(items, Some(v), cont))
    ensures v <= |h| && forall i :: 0 <= i < |items| ==> items[i].uid in Cluster(h, v)
  {
    PageStep(h, w, items, v, cont);
    PoolIsLive(h, w, items, v, cont);
  }

  lemma EventAdds(h: seq<Change>, w: World, event: EventType, obj: Object, v: nat)
    requires Inv(h, w) && event != ERROR && event != BOOKMARK && Gives(h, w, Received(event, Some(obj), Some(v)))
    ensures var w' := Advance(h, w, Received(event, Some(obj), Some(v)));
            && w'.agent.calls == w.agent.calls + CallFor(event, obj) && |CallFor(event, obj)| == 1
            && w.high < w'.high <= |h| && w.covered <= w'.covered
            && Witnessed(h, w', CallFor(event, obj)[0])
  {
    hide AllKnown, Has, Mirrored, Gives, Advance;
    EventStep(h, w, event, obj, v);
    if event == DELETED {
      var w' := Advance(h, w, Received(event, Some(obj), Some(v)));
      assert v in w'.covered && h[v - 1] == Gone(obj.uid);
    }
  }

  lemma InputAdds(h: seq<Change>, w: World, input: Input)
    requires Inv(h, w) && Gives(h, w, input)
    ensures var w' := Advance(h, w, input);
            && w.high <= w'.high <= |h| && w.covered <= w'.covered
            && w.agent.calls <= w'.agent.calls
            && forall i :: |w.agent.calls| <= i < |w'.agent.calls| ==> Witnessed(h, w', w'.agent.calls[i])
  {
    hide AllKnown, Has, Mirrored, Cluster, CoveredGone;
    var w' := Advance(h, w, input);
    if input.ListPage? {
      PageStep(h, w, input.items, input.rv.value, input.cont);
      PageAdds(h, w, input.items, input.rv.value, input.cont);
    } else if input.Received? && input.event != ERROR && input.obj.Some? {
      EventStep(h, w, input.event, input.obj.value, input.objRv.value);
      if input.event != BOOKMARK {
        EventAdds(h, w, input.event, input.obj.value, input.objRv.value);
      }
    } else {
      assert w'.agent.calls == w.agent.calls && w'.high == w.high;
    }
  }

  // ---- The log ----

  /** Every delete call stems from a covered deletion, and no uid comes back after its delete call. */
  ghost predicate LogInv(h: seq<Change>, w: World) {
    var calls := w.agent.calls;
    && (forall i :: 0 <= i < |calls| && calls[i].DeleteCall? ==> CoveredGone(h, w, calls[i].obj.uid))
    && NoReuse(calls)
  }

  lemma GoneIsDead(h: seq<Change>, w: World, uid: string)
    requires UidsNeverReused(h) && CoveredGone(h, w, uid)
    ensures uid !in Cluster(h, w.high)
  {
    var d :| d in w.covered && 0 < d <= w.high <= |h| && h[d - 1] == Gone(uid);
    DeadAfterGone(h, d, w.high, uid);
  }

  lemma LogStep(h: seq<Change>, w: World, input: Input)
    requires Inv(h, w) && LogInv(h, w) && UidsNeverReused(h) && Gives(h, w, input)
    ensures LogInv(h, Advance(h, w, input))
  {
    var w' := Advance(h, w, input);
    var before, calls := w.agent.calls, w'.agent.calls;
    InputAdds(h, w, input);
    hide Inv, Gives, Advance, Cluster, UidsNeverReused;
    forall i | 0 <= i < |calls| && calls[i].DeleteCall?
      ensures CoveredGone(h, w', calls[i].obj.uid)
    {
      if i < |before| {
        assert CoveredGone(h, w, before[i].obj.uid);
      } else {
        assert Witnessed(h, w', calls[i]);
      }
    }
    forall i, j | 0 <= i < j < |calls| && calls[i].DeleteCall? && !calls[j].DeleteCall?
      ensures calls[i].obj.uid != calls[j].obj.uid
    {
      if j < |before| {
        assert before[i] == calls[i] && before[j] == calls[j];
      } else {
        assert Witnessed(h, w', calls[j]);
        GoneIsDead(h, w', calls[i].obj.uid);
      }
    }
  }

  /** In every run, however often it relists, each delete call stems from a deletion that a watch delivered, and
      no add or update call follows a delete call for its uid. */
  lemma {:induction false} LogInvHolds(h: seq<Change>, inputs: seq<Input>)
    requires Possible(h, inputs) && UidsNeverReused(h)
    ensures LogInv(h, After(h, inputs))
  {
    if inputs != [] {
      var init := inputs[..|inputs| - 1];
      LogInvHolds(h, init);
      InvHolds(h, init);
      hide Inv, LogInv, Gives, Advance;
      LogStep(h, After(h, init), inputs[|inputs| - 1]);
    }
  }

  lemma {:induction false} PossiblePrefix(h: seq<Change>, inputs: seq<Input>, n: nat)
    requires Possible(h, inputs) && n <= |inputs|
    ensures Possible(h, inputs[..n])
  {
    if n < |inputs| {
      PossiblePrefix(h, inputs[..|inputs| - 1], n);
      assert inputs[..|inputs| - 1][..n] == inputs[..n];
    } else {
      assert inputs[..n] == inputs;
    }
  }

  /** The uid is live at version c or later. */
  ghost predicate LiveFrom(h: seq<Change>, c: nat, uid: string) {
    exists v :: c <= v <= |h| && uid in Cluster(h, v)
  }

  /** Calls are only appended, and an add or update call after the first n answers is for an object that is live
      at some version no older than anything shown by then. */
  lemma {:induction false} LaterPutsAreLive(h: seq<Change>, inputs: seq<Input>, n: nat)
    requires Possible(h, inputs) && n <= |inputs|
    ensures var w, w' := After(h, inputs[..n]), After(h, inputs);
            && w.high <= w'.high && w.agent.calls <= w'.agent.calls
            && forall i :: |w.agent.calls| <= i < |w'.agent.calls| && !w'.agent.calls[i].DeleteCall? ==>
                 LiveFrom(h, w.high, w'.agent.calls[i].obj.uid)
  {
    if n == |inputs| {
      assert inputs[..n] == inputs;
    } else {
      var init, input := inputs[..|inputs| - 1], inputs[|inputs| - 1];
      assert init[..n] == inputs[..n];
      LaterPutsAreLive(h, init, n);
      InvHolds(h, init);
      var c, w, w' := After(h, inputs[..n]).high, After(h, init), After(h, inputs);
      assert Gives(h, w, input) && w' == Advance(h, w, input);
      InputAdds(h, w, input);
      hide Inv, Gives, Advance, After, Cluster, CoveredGone;
      forall i | |w.agent.calls| <= i < |w'.agent.calls| && !w'.agent.calls[i].DeleteCall?
        ensures LiveFrom(h, c, w'.agent.calls[i].obj.uid)
      {
        assert Witnessed(h, w', w'.agent.calls[i]);
      }
    }
  }

  // ---- Mirror and log ----

  lemma TouchedSnoc(init: seq<Call>, call: Call, uid: string)
    ensures Touched(init + [call], uid) <==> Touched(init, uid) || call.obj.uid == uid
  {
    var calls := init + [call];
    if Touched(init, uid) {
      var i :| 0 <= i < |init| && init[i].obj.uid == uid;
      assert calls[i].obj.uid == uid;
    } else if call.obj.uid == uid {
      assert calls[|init|].obj.uid == uid;
    }
  }

  lemma TouchedPrefix(a: seq<Call>, b: seq<Call>, uid: string)
    requires a <= b && Touched(a, uid)
    ensures Touched(b, uid)
  {
    var j :| 0 <= j < |a| && a[j].obj.uid == uid;
    assert b[j].obj.uid == uid;
  }

  lemma NoReusePrefix(a: seq<Call>, b: seq<Call>)
    requires a <= b && NoReuse(b)
    ensures NoReuse(a)
  {
    assert forall i :: 0 <= i < |a| ==> a[i] == b[i];
  }

  lemma {:induction false} TouchedButGone(calls: seq<Call>, uid: string)
    requires Touched(calls, uid) && uid !in Mirrored(calls)
    ensures exists i :: 0 <= i < |calls| && calls[i].DeleteCall? && calls[i].obj.uid == uid
  {
    var n := |calls| - 1;
    if calls[n].obj.uid != uid {
      assert Touched(calls[..n], uid);
      TouchedButGone(calls[..n], uid);
    }
  }

  lemma {:induction false} MirroredIsPut(calls: seq<Call>, uid: string)
    requires uid in Mirrored(calls)
    ensures exists i :: 0 <= i < |calls| && !calls[i].DeleteCall? && calls[i].obj.uid == uid
  {
    var n := |calls| - 1;
    if calls[n].obj.uid != uid {
      MirroredIsPut(calls[..n], uid);
      var i :| 0 <= i < n && !calls[..n][i].DeleteCall? && calls[..n][i].obj.uid == uid;
      assert calls[i] == calls[..n][i];
    }
  }

  lemma CoveredGoneIsUnmirrored(h: seq<Change>, w: World, uid: string)
    requires Inv(h, w) && UidsNeverReused(h) && CoveredGone(h, w, uid)
    ensures uid !in Mirrored(w.agent.calls)
  {
    var mirror := Mirrored(w.agent.calls);
    if uid in mirror {
      var s :| 0 <= s <= w.high && KnownSince(h, w.covered, uid, mirror[uid], s);
      var d :| d in w.covered && 0 < d <= w.high <= |h| && h[d - 1] == Gone(uid);
      DeadAfterGone(h, d, s, uid);
    }
  }

  /** In any run the mirror is the cluster at the cursor exactly when every object that was ever delivered and is
      gone by then had its deletion delivered by a watch. */
  lemma MirrorIsExactIff(h: seq<Change>, inputs: seq<Input>)
    requires Possible(h, inputs) && UidsNeverReused(h)
    requires Cursor(Trace(inputs)).Some?
    ensures Cursor(Trace(inputs)).value <= |h|
    ensures var w, live, calls := After(h, inputs), Cluster(h, Cursor(Trace(inputs)).value), Trace(inputs).calls;
            Mirrored(calls) == live <==>
            (forall uid :: Touched(calls, uid) && uid !in live ==> CoveredGone(h, w, uid))
  {
    MirrorAgrees(h, inputs);
    InvHolds(h, inputs);
    LogInvHolds(h, inputs);
    var w, live, calls := After(h, inputs), Cluster(h, Cursor(Trace(inputs)).value), Trace(inputs).calls;
    hide Cluster, After, Trace, Inv, UidsNeverReused;
    if Mirrored(calls) == live {
      forall uid | Touched(calls, uid) && uid !in live
        ensures CoveredGone(h, w, uid)
      {
        TouchedButGone(calls, uid);
      }
    } else if forall uid :: Touched(calls, uid) && uid !in live ==> CoveredGone(h, w, uid) {
      forall uid | uid in Mirrored(calls)
        ensures uid in live
      {
        if uid !in live {
          MirroredIsPut(calls, uid);
          CoveredGoneIsUnmirrored(h, w, uid);
        }
      }
      HaveEachOther(Mirrored(calls), live);
    }
  }
}
