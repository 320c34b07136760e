/** What the handler calls of any run add up to, against an API server that keeps a versioned history. */
module Mirror {
  import opened Common
  import opened Watcher

  /** One version of the API server. Elsewhere is a change to a resource this watcher does not follow. */
  datatype Change = Put(obj: Object) | Gone(uid: string) | Elsewhere

  type Objects = map<string, string>

  /** The live objects at version v. */
  function Cluster(h: seq<Change>, v: nat): Objects
    requires v <= |h|
  {
    if v == 0 then map[] else
    var before := Cluster(h, v - 1);
    match h[v - 1]
    case Put(obj) => before[obj.uid := obj.content]
    case Gone(uid) => before - {uid}
    case Elsewhere => before
  }

  /** `high` is the newest version shown to this watcher, `rest` what the open page chain still has to list,
      `covered` the versions that a watch delivered. */
  datatype World = World(agent: State, high: nat, rest: Objects, covered: set<nat>)

  const FIRST := World(START, 0, map[], {})

  function Uids(items: seq<Object>): set<string> {
    set i | 0 <= i < |items| :: items[i].uid
  }

  /** The objects a page draws from: a snapshot no older than anything shown, or what is left of it. */
  function Pool(h: seq<Change>, w: World, rv: Version): Objects
    requires w.agent.phase.Listing?
  {
    if w.agent.phase.cont != "" then w.rest
    else if rv.Some? && rv.value <= |h| then Cluster(h, rv.value) else map[]
  }

  ghost predicate PageOf(pool: Objects, items: seq<Object>) {
    && (forall i :: 0 <= i < |items| ==> items[i].uid in pool && pool[items[i].uid] == items[i].content)
    && (forall i, j :: 0 <= i < j < |items| ==> items[i].uid != items[j].uid)
  }

  /** Nothing that concerns this watcher happened after version a, up to and including version b. */
  ghost predicate QuietBetween(h: seq<Change>, a: nat, b: nat) {
    b <= |h| && forall i :: a <= i < b ==> h[i] == Elsewhere
  }

  /** The event a watch sends for version v. */
  ghost predicate Announces(h: seq<Change>, v: nat, event: EventType, obj: Object)
    requires 0 < v <= |h|
  {
    match event
    case ADDED => h[v - 1] == Put(obj) && obj.uid !in Cluster(h, v - 1)
    case MODIFIED => h[v - 1] == Put(obj) && obj.uid in Cluster(h, v - 1)
    case DELETED => h[v - 1] == Gone(obj.uid)
    case _ => false
  }

  /** The answers an API server with this history may give. Any call may fail, a stream may close or break at
      any point, and events without an object may come in between. */
  ghost predicate Gives(h: seq<Change>, w: World, input: Input) {
    Answers(w.agent.phase, input) &&
    match input
    case ListFailed => true
    case ListPage(items, rv, cont) =>
      && rv.Some? && w.high <= rv.value <= |h|
      && (w.agent.phase.cont != "" ==> rv.value == w.high)
      && PageOf(Pool(h, w, rv), items)
      && (cont == "" ==> Pool(h, w, rv).Keys <= Uids(items))
    case WatchFailed => true
    case WatchOpened => true
    case Closed => true
    case Received(event, obj, rv) =>
      event == ERROR || obj.None? ||
      (rv.Some? && w.agent.phase.cursor.Some? &&
       var c, v := w.agent.phase.cursor.value, rv.value;
       if event == BOOKMARK then c <= v && QuietBetween(h, c, v)
       else c < v <= |h| && QuietBetween(h, c, v - 1) && Announces(h, v, event, obj.value))
  }

  function Advance(h: seq<Change>, w: World, input: Input): World {
    var w' := w.(agent := Step(w.agent, input));
    if !Answers(w.agent.phase, input) then w' else
    match input
    case ListPage(items, Some(v), _) => w'.(high := v, rest := Pool(h, w, Some(v)) - Uids(items))
    case Received(event, Some(_), Some(v)) =>
      if event == ERROR then w'
      else if event == BOOKMARK then w'.(high := v)
      else w'.(high := v, covered := w.covered + {v})
    case _ => w'
  }

  function After(h: seq<Change>, inputs: seq<Input>): World {
    if inputs == [] then FIRST else Advance(h, After(h, inputs[..|inputs| - 1]), inputs[|inputs| - 1])
  }

  ghost predicate Possible(h: seq<Change>, inputs: seq<Input>) {
    inputs == [] ||
    (Possible(h, inputs[..|inputs| - 1]) && Gives(h, After(h, inputs[..|inputs| - 1]), inputs[|inputs| - 1]))
  }

  /** The copy of the cluster that the handler calls build. */
  function Mirrored(calls: seq<Call>): Objects {
    if calls == [] then map[] else
    var before := Mirrored(calls[..|calls| - 1]);
    match calls[|calls| - 1]
    case AddCall(obj) => before[obj.uid := obj.content]
    case UpdateCall(obj) => before[obj.uid := obj.content]
    case DeleteCall(obj) => before - {obj.uid}
  }

  /** The version a watch continues from. */
  function Cursor(s: State): Version {
    match s.phase
    case Listing(_) => None
    case Opening(rv) => rv
    case Watching(rv) => rv
  }

  /** A mirrored object was live, with this content, at version s, and no watch delivered its deletion since. */
  ghost predicate KnownSince(h: seq<Change>, covered: set<nat>, uid: string, content: string, s: nat) {
    && s <= |h| && Get(Cluster(h, s), uid) == Some(content)
    && forall d :: d in covered && s < d ==> d <= |h| && h[d - 1] != Gone(uid)
  }

  ghost predicate AllKnown(h: seq<Change>, w: World, mirror: Objects) {
    forall uid :: uid in mirror ==> exists s :: 0 <= s <= w.high && KnownSince(h, w.covered, uid, mirror[uid], s)
  }

  ghost predicate Has(mirror: Objects, objects: Objects) {
    forall uid :: uid in objects ==> uid in mirror && mirror[uid] == objects[uid]
  }

  ghost predicate Inv(h: seq<Change>, w: World) {
    var mirror := Mirrored(w.agent.calls);
    && w.high <= |h|
    && (forall d :: d in w.covered ==> 0 < d <= w.high)
    && AllKnown(h, w, mirror)
    && match w.agent.phase
       case Listing(cont) =>
         cont != "" ==> Has(Cluster(h, w.high), w.rest) && Has(mirror, Cluster(h, w.high) - w.rest.Keys)
       case Opening(rv) => rv == Some(w.high) && Has(mirror, Cluster(h, w.high))
       case Watching(rv) => rv == Some(w.high) && Has(mirror, Cluster(h, w.high))
  }

  lemma UidsSnoc(init: seq<Object>, last: Object)
    ensures Uids(init + [last]) == Uids(init) + {last.uid}
  {
    var items := init + [last];
    forall uid | uid in Uids(init) + {last.uid}
      ensures uid in Uids(items)
    {
      if uid in Uids(init) {
        var i :| 0 <= i < |init| && init[i].uid == uid;
        assert items[i].uid == uid;
      } else {
        assert items[|init|].uid == uid;
      }
    }
  }

  /** The mirror after one handler call. */
  lemma MirroredCall(calls: seq<Call>, event: EventType, obj: Object)
    requires event == ADDED || event == MODIFIED || event == DELETED
    ensures Mirrored(calls + CallFor(event, obj)) ==
            if event == DELETED then Mirrored(calls) - {obj.uid} else Mirrored(calls)[obj.uid := obj.content]
  {
    assert (calls + CallFor(event, obj))[..|calls|] == calls;
  }

  lemma {:induction false} MirroredAdds(calls: seq<Call>, items: seq<Object>, uid: string)
    requires forall i, j :: 0 <= i < j < |items| ==> items[i].uid != items[j].uid
    ensures var before, after := Mirrored(calls), Mirrored(calls + AddCalls(items));
            && (uid !in Uids(items) ==> Get(after, uid) == Get(before, uid))
            && (forall i :: 0 <= i < |items| && items[i].uid == uid ==> Get(after, uid) == Some(items[i].content))
  {
    if items == [] {
      assert calls + AddCalls(items) == calls;
    } else {
      var init, last := items[..|items| - 1], items[|items| - 1];
      hide Uids, Mirrored;
      MirroredAdds(calls, init, uid);
      UidsSnoc(init, last);
      MirroredCall(calls + AddCalls(init), ADDED, last);
      assert init + [last] == items;
      assert calls + AddCalls(items) == calls + AddCalls(init) + [AddCall(last)];
    }
  }

  lemma {:induction false} QuietCluster(h: seq<Change>, a: nat, b: nat)
    requires a <= b && QuietBetween(h, a, b)
    ensures Cluster(h, b) == Cluster(h, a)
  {
    if a < b {
      QuietCluster(h, a, b - 1);
    }
  }

  /** What a page changes: the version of the chain is kept, and the objects of the page are added. */
  lemma PageStep(h: seq<Change>, w: World, items: seq<Object>, v: nat, cont: string)
    requires Inv(h, w) && Gives(h, w, ListPage(items, Some(v), cont))
    ensures var w' := Advance(h, w, ListPage(items, Some(v), cont));
            && w'.high == v && w'.agent.phase == (if cont == "" then Opening(Some(v)) else Listing(cont))
            && w'.agent.calls == w.agent.calls + AddCalls(items)
            && w'.covered == w.covered && w'.rest == Pool(h, w, Some(v)) - Uids(items)
    ensures w.high <= v <= |h| && PageOf(Pool(h, w, Some(v)), items)
    ensures w.agent.phase.cont != "" ==> v == w.high
    ensures cont == "" ==> Pool(h, w, Some(v)).Keys <= Uids(items)
  {
    hide AllKnown, Has, Mirrored, Cluster, PageOf;
  }

  /** After a page the mirror holds the page's objects, and what it held before elsewhere. */
  lemma PageAt(h: seq<Change>, w: World, items: seq<Object>, v: nat, cont: string, uid: string)
    requires Inv(h, w) && Gives(h, w, ListPage(items, Some(v), cont))
    ensures var after, pool := Mirrored(w.agent.calls + AddCalls(items)), Pool(h, w, Some(v));
            && (uid in Uids(items) ==> uid in pool)
            && Get(after, uid) == if uid in Uids(items) then Get(pool, uid) else Get(Mirrored(w.agent.calls), uid)
  {
    PageStep(h, w, items, v, cont);
    hide Inv, Advance, Gives, Mirrored, Pool;
    MirroredAdds(w.agent.calls, items, uid);
    if uid in Uids(items) {
      var i :| 0 <= i < |items| && items[i].uid == uid;
    }
  }

  lemma PageKnown(h: seq<Change>, w: World, items: seq<Object>, v: nat, cont: string)
    requires Inv(h, w) && Gives(h, w, ListPage(items, Some(v), cont))
    ensures var w' := Advance(h, w, ListPage(items, Some(v), cont));
            AllKnown(h, w', Mirrored(w'.agent.calls))
  {
    var before, after := Mirrored(w.agent.calls), Mirrored(w.agent.calls + AddCalls(items));
    PageStep(h, w, items, v, cont);
    hide Advance, Gives, Cluster, Mirrored, Uids, KnownSince;
    forall uid | uid in after
      ensures exists s :: 0 <= s <= v && KnownSince(h, w.covered, uid, after[uid], s)
    {
      PageAt(h, w, items, v, cont, uid);
      if uid in Uids(items) {
        KnownNow(h, w.covered, uid, after[uid], v);
      } else {
        assert before[uid] == after[uid];
        var s :| 0 <= s <= w.high && KnownSince(h, w.covered, uid, before[uid], s);
      }
    }
  }

  /** The pool holds live objects, and the mirror has every live object outside it. */
  lemma PoolIsLive(h: seq<Change>, w: World, items: seq<Object>, v: nat, cont: string)
    requires Inv(h, w) && Gives(h, w, ListPage(items, Some(v), cont))
    ensures v <= |h|
    ensures var full, pool := Cluster(h, v), Pool(h, w, Some(v));
            Has(full, pool) && Has(Mirrored(w.agent.calls), full - pool.Keys)
  {
    hide Mirrored, Cluster, AllKnown, PageOf;
  }

  lemma PageHas(h: seq<Change>, w: World, items: seq<Object>, v: nat, cont: string)
    requires Inv(h, w) && Gives(h, w, ListPage(items, Some(v), cont))
    ensures v <= |h|
    ensures var full, rest := Cluster(h, v), Pool(h, w, Some(v)) - Uids(items);
            && Has(full, rest)
            && Has(Mirrored(w.agent.calls + AddCalls(items)), full - rest.Keys)
  {
    var full, rest := Cluster(h, v), Pool(h, w, Some(v)) - Uids(items);
    var after := Mirrored(w.agent.calls + AddCalls(items));
    PoolIsLive(h, w, items, v, cont);
    hide Inv, Gives, Mirrored, Cluster, Uids, Pool;
    forall uid | uid in full && uid !in rest
      ensures uid in after && after[uid] == full[uid]
    {
      PageAt(h, w, items, v, cont, uid);
      assert uid !in Uids(items) ==> uid in full - Pool(h, w, Some(v)).Keys;
    }
  }

  lemma PageInv(h: seq<Change>, w: World, items: seq<Object>, v: nat, cont: string)
    requires Inv(h, w) && Gives(h, w, ListPage(items, Some(v), cont))
    ensures Inv(h, Advance(h, w, ListPage(items, Some(v), cont)))
  {
    PageKnown(h, w, items, v, cont);
    PageStep(h, w, items, v, cont);
    PageHas(h, w, items, v, cont);
    hide Advance, Gives, Cluster, Mirrored, Uids, AllKnown, PageOf, Pool, Has;
    if cont == "" {
      var rest := Pool(h, w, Some(v)) - Uids(items);
      assert rest.Keys == {} && Cluster(h, v) - rest.Keys == Cluster(h, v);
    }
  }

  /** What an event changes: the cursor moves to its version, and one handler call follows the cluster's change. */
  lemma EventStep(h: seq<Change>, w: World, event: EventType, obj: Object, v: nat)
    requires Inv(h, w) && event != ERROR && Gives(h, w, Received(event, Some(obj), Some(v)))
    ensures var w' := Advance(h, w, Received(event, Some(obj), Some(v)));
            && w'.high == v && w'.agent.phase == Watching(Some(v))
            && w'.agent.calls == w.agent.calls + CallFor(event, obj)
            && w'.covered == if event == BOOKMARK then w.covered else w.covered + {v}
    ensures w.high <= v <= |h| && Cluster(h, v) ==
            if event == BOOKMARK then Cluster(h, w.high)
            else if event == DELETED then Cluster(h, w.high) - {obj.uid}
            else Cluster(h, w.high)[obj.uid := obj.content]
    ensures event != BOOKMARK ==> w.high < v && (event == ADDED || event == MODIFIED || event == DELETED)
    ensures event == DELETED ==> h[v - 1] == Gone(obj.uid)
    ensures event == ADDED || event == MODIFIED ==> h[v - 1] == Put(obj)
  {
    hide AllKnown, Has, Mirrored;
    QuietCluster(h, w.high, if event == BOOKMARK then v else v - 1);
  }

  lemma KnownNow(h: seq<Change>, covered: set<nat>, uid: string, content: string, v: nat)
    requires v <= |h| && Get(Cluster(h, v), uid) == Some(content)
    requires forall d :: d in covered ==> d <= v
    ensures KnownSince(h, covered, uid, content, v)
  {
  }

  lemma StillKnown(h: seq<Change>, covered: set<nat>, uid: string, content: string, s: nat, v: nat)
    requires KnownSince(h, covered, uid, content, s)
    requires 0 < v <= |h| && h[v - 1] != Gone(uid)
    ensures KnownSince(h, covered + {v}, uid, content, s)
  {
  }

  /** One more delivered version keeps what is known of a uid that it does not delete. */
  lemma KeepsKnown(h: seq<Change>, w: World, uid: string, content: string, v: nat)
    requires exists s :: 0 <= s <= w.high && KnownSince(h, w.covered, uid, content, s)
    requires w.high <= v && 0 < v <= |h| && h[v - 1] != Gone(uid)
    ensures exists s :: 0 <= s <= v && KnownSince(h, w.covered + {v}, uid, content, s)
  {
    hide KnownSince;
    var s :| 0 <= s <= w.high && KnownSince(h, w.covered, uid, content, s);
    StillKnown(h, w.covered, uid, content, s, v);
  }

  lemma EventKnown(h: seq<Change>, w: World, event: EventType, obj: Object, v: nat)
    requires Inv(h, w) && event != ERROR && event != BOOKMARK && Gives(h, w, Received(event, Some(obj), Some(v)))
    ensures var w' := Advance(h, w, Received(event, Some(obj), Some(v)));
            AllKnown(h, w', Mirrored(w'.agent.calls))
  {
    var w' := Advance(h, w, Received(event, Some(obj), Some(v)));
    var before, after := Mirrored(w.agent.calls), Mirrored(w'.agent.calls);
    EventStep(h, w, event, obj, v);
    MirroredCall(w.agent.calls, event, obj);
    assert AllKnown(h, w, before) && forall d :: d in w'.covered ==> d <= v;
    hide Inv, Advance, Gives, Mirrored, Cluster, KnownSince;
    forall uid | uid in after
      ensures exists s :: 0 <= s <= v && KnownSince(h, w'.covered, uid, after[uid], s)
    {
      if uid == obj.uid {
        KnownNow(h, w'.covered, uid, after[uid], v);
      } else {
        assert before[uid] == after[uid];
        KeepsKnown(h, w, uid, before[uid], v);
      }
    }
  }

  lemma EventInv(h: seq<Change>, w: World, event: EventType, obj: Object, v: nat)
    requires Inv(h, w) && event != ERROR && Gives(h, w, Received(event, Some(obj), Some(v)))
    ensures Inv(h, Advance(h, w, Received(event, Some(obj), Some(v))))
  {
    hide Advance, Mirrored, Cluster, KnownSince;
    EventStep(h, w, event, obj, v);
    if event == BOOKMARK {
      assert w.agent.calls + CallFor(event, obj) == w.agent.calls;
    } else {
      hide AllKnown;
      MirroredCall(w.agent.calls, event, obj);
      EventKnown(h, w, event, obj, v);
    }
  }

  lemma {:induction false} InvHolds(h: seq<Change>, inputs: seq<Input>)
    requires Possible(h, inputs)
    ensures Inv(h, After(h, inputs))
  {
    if inputs != [] {
      var w, input := After(h, inputs[..|inputs| - 1]), inputs[|inputs| - 1];
      InvHolds(h, inputs[..|inputs| - 1]);
      match input
      case ListPage(items, rv, cont) => PageInv(h, w, items, rv.value, cont);
      case Received(event, obj, rv) =>
        if event != ERROR && obj.Some? { EventInv(h, w, event, obj.value, rv.value); }
      case _ =>
    }
  }

  lemma {:induction false} DeletedBetween(h: seq<Change>, s: nat, c: nat, uid: string) returns (d: nat)
    requires s <= c <= |h| && uid in Cluster(h, s) && uid !in Cluster(h, c)
    ensures s < d <= c && h[d - 1] == Gone(uid)
  {
    if uid in Cluster(h, c - 1) {
      d := c;
    } else {
      d := DeletedBetween(h, s, c - 1, uid);
    }
  }

  /** The mirrored object was live at version s and deleted at a later version d that no watch delivered. */
  ghost predicate MissedDeletion(h: seq<Change>, w: World, uid: string, content: string, s: nat, d: nat)
    requires w.high <= |h|
  {
    s < d <= w.high && Get(Cluster(h, s), uid) == Some(content) && h[d - 1] == Gone(uid) && d !in w.covered
  }

  /** Whenever the watcher holds a cursor, its mirror agrees with the cluster at that version on every live
      object; an extra entry was live once and was deleted at a version no watch covered. */
  lemma MirrorAgrees(h: seq<Change>, inputs: seq<Input>)
    requires Possible(h, inputs)
    requires Cursor(Trace(inputs)).Some?
    ensures var w, c, mirror := After(h, inputs), Cursor(Trace(inputs)).value, Mirrored(Trace(inputs).calls);
            && w.agent == Trace(inputs) && c == w.high <= |h|
            && Has(mirror, Cluster(h, c))
            && forall uid :: uid in mirror && uid !in Cluster(h, c) ==>
                 exists s: nat, d: nat :: MissedDeletion(h, w, uid, mirror[uid], s, d)
  {
    AgentIsTrace(h, inputs);
    InvHolds(h, inputs);
    var w, mirror := After(h, inputs), Mirrored(Trace(inputs).calls);
    forall uid | uid in mirror && uid !in Cluster(h, w.high)
      ensures exists s: nat, d: nat :: MissedDeletion(h, w, uid, mirror[uid], s, d)
    {
      var s :| 0 <= s <= w.high && KnownSince(h, w.covered, uid, mirror[uid], s);
      var d := DeletedBetween(h, s, w.high, uid);
      assert MissedDeletion(h, w, uid, mirror[uid], s, d);
    }
  }

  lemma {:induction false} AgentIsTrace(h: seq<Change>, inputs: seq<Input>)
    ensures After(h, inputs).agent == Trace(inputs)
  {
    if inputs != [] {
      AgentIsTrace(h, inputs[..|inputs| - 1]);
    }
  }

  // ---- Runs without a gap ----

  predicate Breaks(input: Input) {
    input.ListFailed? || (input.Received? && input.event == ERROR)
  }

  /** Once a page has arrived, no list call fails and no stream breaks with an ERROR event, so there is no relist.
      The first list may be attempted any number of times. */
  ghost predicate NoGap(inputs: seq<Input>) {
    forall i, j :: 0 <= i < j < |inputs| && inputs[i].ListPage? ==> !Breaks(inputs[j])
  }

  lemma {:induction false} NothingListed(h: seq<Change>, inputs: seq<Input>)
    requires Possible(h, inputs) && forall i :: 0 <= i < |inputs| ==> !inputs[i].ListPage?
    ensures After(h, inputs).agent.phase == Listing("") && After(h, inputs).agent.calls == []
  {
    if inputs != [] {
      NothingListed(h, inputs[..|inputs| - 1]);
    }
  }

  /** Without a gap a cursor, once held, is never given up. */
  lemma {:induction false} CursorIsKept(h: seq<Change>, inputs: seq<Input>, n: nat)
    requires Possible(h, inputs) && NoGap(inputs)
    requires n <= |inputs| && Cursor(Trace(inputs[..n])).Some?
    ensures Cursor(Trace(inputs)).Some?
  {
    if n == |inputs| {
      assert inputs[..n] == inputs;
    } else {
      var init, input := inputs[..|inputs| - 1], inputs[|inputs| - 1];
      assert init[..n] == inputs[..n];
      CursorIsKept(h, init, n);
      AgentIsTrace(h, init);
      InvHolds(h, init);
      if Breaks(input) {
        assert forall i :: 0 <= i < |init| ==> inputs[i] == init[i];
        NothingListed(h, init);
      }
      hide AllKnown, Has, Mirrored, Cluster;
    }
  }

  ghost predicate ExactInv(h: seq<Change>, w: World) {
    var mirror := Mirrored(w.agent.calls);
    && w.high <= |h|
    && match w.agent.phase
       case Listing(cont) => if cont == "" then mirror == map[] else Has(Cluster(h, w.high), mirror)
       case Opening(_) => mirror == Cluster(h, w.high)
       case Watching(_) => mirror == Cluster(h, w.high)
  }

  lemma ExactPage(h: seq<Change>, w: World, items: seq<Object>, v: nat, cont: string)
    requires Inv(h, w) && ExactInv(h, w) && Gives(h, w, ListPage(items, Some(v), cont))
    ensures ExactInv(h, Advance(h, w, ListPage(items, Some(v), cont)))
  {
    var full, before, after := Cluster(h, v), Mirrored(w.agent.calls), Mirrored(w.agent.calls + AddCalls(items));
    PageStep(h, w, items, v, cont);
    PageInv(h, w, items, v, cont);
    PoolIsLive(h, w, items, v, cont);
    assert Has(full, before);
    hide Advance, Gives, Cluster, Mirrored, Uids, AllKnown, PageOf, Pool;
    forall uid | uid in after
      ensures uid in full && full[uid] == after[uid]
    {
      PageAt(h, w, items, v, cont, uid);
    }
    assert Has(full, after);
    if cont == "" {
      HaveEachOther(full, after);
    }
  }

  lemma HaveEachOther(a: Objects, b: Objects)
    requires Has(a, b) && Has(b, a)
    ensures a == b
  {
  }

  lemma ExactEvent(h: seq<Change>, w: World, event: EventType, obj: Object, v: nat)
    requires Inv(h, w) && ExactInv(h, w) && event != ERROR && Gives(h, w, Received(event, Some(obj), Some(v)))
    ensures ExactInv(h, Advance(h, w, Received(event, Some(obj), Some(v))))
  {
    EventStep(h, w, event, obj, v);
    if event == BOOKMARK {
      assert w.agent.calls + CallFor(event, obj) == w.agent.calls;
    } else {
      MirroredCall(w.agent.calls, event, obj);
    }
  }

  lemma {:induction false} ExactInvHolds(h: seq<Change>, inputs: seq<Input>)
    requires Possible(h, inputs) && NoGap(inputs)
    ensures ExactInv(h, After(h, inputs))
  {
    if inputs != [] {
      var init, input := inputs[..|inputs| - 1], inputs[|inputs| - 1];
      ExactInvHolds(h, init);
      InvHolds(h, init);
      if Breaks(input) {
        assert forall i :: 0 <= i < |init| ==> inputs[i] == init[i];
        NothingListed(h, init);
      }
      match input
      case ListPage(items, rv, cont) => ExactPage(h, After(h, init), items, rv.value, cont);
      case Received(event, obj, rv) =>
        if event != ERROR && obj.Some? { ExactEvent(h, After(h, init), event, obj.value, rv.value); }
      case _ =>
    }
  }

  /** If nothing forces a relist once a page has arrived, the mirror is the cluster at the cursor. */
  lemma MirrorIsExactWithoutGap(h: seq<Change>, inputs: seq<Input>)
    requires Possible(h, inputs) && NoGap(inputs)
    requires Cursor(Trace(inputs)).Some?
    ensures var c := Cursor(Trace(inputs)).value;
            c <= |h| && Mirrored(Trace(inputs).calls) == Cluster(h, c)
  {
    MirrorAgrees(h, inputs);
    ExactInvHolds(h, inputs);
  }

  lemma AfterExtends(h: seq<Change>, inputs: seq<Input>, input: Input)
    ensures After(h, inputs + [input]) == Advance(h, After(h, inputs), input)
    ensures Possible(h, inputs + [input]) <==> Possible(h, inputs) && Gives(h, After(h, inputs), input)
  {
    assert (inputs + [input])[..|inputs|] == inputs;
  }

  lemma BrokenStream(obj: Object)
    ensures var h := [Put(obj), Gone(obj.uid)];
            var inputs := [ListPage([obj], Some(1), ""), WatchOpened, Received(ERROR, None, None)];
            var w := After(h, inputs);
            && Possible(h, inputs) && w.agent == State(Listing(""), 1, [AddCall(obj)], []) && w.high == 1
            && Cluster(h, 1) == map[obj.uid := obj.content]
  {
    var h := [Put(obj), Gone(obj.uid)];
    var a, b, c := ListPage([obj], Some(1), ""), WatchOpened, Received(ERROR, None, None);
    AfterExtends(h, [], a);
    AfterExtends(h, [a], b);
    AfterExtends(h, [a, b], c);
    assert [] + [a] == [a] && [a] + [b] == [a, b] && [a, b] + [c] == [a, b, c];
    var calls := [AddCall(obj)];
    assert AddCalls([obj]) == calls && [] + calls == calls;
    assert Cluster(h, 0) == map[] && Cluster(h, 1) == map[][obj.uid := obj.content];
    assert [obj][0].uid in Uids([obj]);
    assert After(h, []) == FIRST && Possible(h, []);
    hide After, Possible, Cluster, AddCalls;
    var w := Advance(h, FIRST, a);
    assert Gives(h, FIRST, a) && w.agent == State(Opening(Some(1)), 1, calls, []) && w.high == 1;
    var w' := Advance(h, w, b);
    assert Gives(h, w, b) && w'.agent == State(Watching(Some(1)), 1, calls, []) && w'.high == 1;
    assert Gives(h, w', c);
  }

  /** With a gap the mirror can keep what the cluster lost: an object deleted while the stream was broken. */
  lemma RelistCanLeaveADeletedObject(obj: Object)
    ensures var h := [Put(obj), Gone(obj.uid)];
            var inputs := [ListPage([obj], Some(1), ""), WatchOpened, Received(ERROR, None, None), ListPage([], Some(2), "")];
            && Possible(h, inputs) && Cursor(Trace(inputs)) == Some(2)
            && obj.uid in Mirrored(Trace(inputs).calls) && obj.uid !in Cluster(h, 2)
  {
    var h := [Put(obj), Gone(obj.uid)];
    var a, b, c := ListPage([obj], Some(1), ""), WatchOpened, Received(ERROR, None, None);
    var d := ListPage([], Some(2), "");
    var calls := [AddCall(obj)];
    BrokenStream(obj);
    AfterExtends(h, [a, b, c], d);
    assert [a, b, c] + [d] == [a, b, c, d];
    AgentIsTrace(h, [a, b, c, d]);
    assert calls + AddCalls([]) == calls && calls[..0] == [];
    assert Cluster(h, 2) == Cluster(h, 1) - {obj.uid} == map[];
    assert Mirrored(calls) == map[][obj.uid := obj.content];
    hide After, Trace, Possible, Cluster, Mirrored, AddCalls;
    var w := After(h, [a, b, c]);
    assert Pool(h, w, Some(2)) == map[];
    assert Gives(h, w, d) && Advance(h, w, d).agent == State(Opening(Some(2)), 1, calls, []);
  }
}
