/** Which handler call the watcher makes for which change: lists page by page, watches change by change. */
module Delivery {
  import opened Common
  import opened Watcher
  import opened Mirror

  // ---- Watches ----

  /** The handler for the change of version v: update for an object that was live, add for one that was not. */
  ghost predicate Announced(h: seq<Change>, v: nat, call: Call)
    requires 0 < v <= |h|
  {
    match h[v - 1]
    case Put(obj) => call == if obj.uid in Cluster(h, v - 1) then UpdateCall(obj) else AddCall(obj)
    case Gone(uid) => call.DeleteCall? && call.obj.uid == uid
    case Elsewhere => false
  }

  /** The calls are one for each change after version a, up to version b, in order. */
  ghost predicate Delivers(h: seq<Change>, a: nat, b: nat, calls: seq<Call>)
    requires a <= b <= |h|
    decreases b
  {
    if a == b then calls == []
    else if h[b - 1] == Elsewhere then Delivers(h, a, b - 1, calls)
    else calls != [] && Announced(h, b, calls[|calls| - 1]) && Delivers(h, a, b - 1, calls[..|calls| - 1])
  }

  lemma {:induction false} QuietDelivers(h: seq<Change>, a: nat, b: nat, c: nat, calls: seq<Call>)
    requires a <= b <= c && QuietBetween(h, b, c)
    requires Delivers(h, a, b, calls)
    ensures Delivers(h, a, c, calls)
  {
    if b < c {
      QuietDelivers(h, a, b, c - 1, calls);
    }
  }

  lemma ChangeDelivers(h: seq<Change>, a: nat, b: nat, c: nat, calls: seq<Call>, call: Call)
    requires a <= b < c && QuietBetween(h, b, c - 1) && c <= |h| && h[c - 1] != Elsewhere
    requires Delivers(h, a, b, calls) && Announced(h, c, call)
    ensures Delivers(h, a, c, calls + [call])
  {
    QuietDelivers(h, a, b, c - 1, calls);
    assert (calls + [call])[..|calls|] == calls;
  }

  lemma EventAnnounced(h: seq<Change>, w: World, event: EventType, obj: Object, v: nat)
    requires Inv(h, w) && event != ERROR && event != BOOKMARK && Gives(h, w, Received(event, Some(obj), Some(v)))
    ensures var w' := Advance(h, w, Received(event, Some(obj), Some(v)));
            var before, after := w.agent.calls, w'.agent.calls;
            && w'.high == v && w.high < v <= |h| && h[v - 1] != Elsewhere && QuietBetween(h, w.high, v - 1)
            && |after| == |before| + 1 && before <= after && Announced(h, v, after[|before|])
  {
    hide AllKnown, Has, Mirrored;
  }

  /** The handlers were called once if the version moved on to a change, and then the call is the right one for it
      and no change was passed over; otherwise there was neither a call nor a change. */
  ghost predicate MovedOn(h: seq<Change>, w: World, w': World) {
    var before, after := w.agent.calls, w'.agent.calls;
    && w.high <= w'.high <= |h|
    && if w.high < w'.high && h[w'.high - 1] != Elsewhere
       then
         && |after| == |before| + 1 && before <= after
         && Announced(h, w'.high, after[|before|]) && QuietBetween(h, w.high, w'.high - 1)
       else after == before && QuietBetween(h, w.high, w'.high)
  }

  lemma EventIsAnnounced(h: seq<Change>, w: World, input: Input)
    requires Inv(h, w) && Gives(h, w, input)
    requires input.Received? && input.event != ERROR && input.event != BOOKMARK && input.obj.Some?
    ensures MovedOn(h, w, Advance(h, w, input))
  {
    var v := input.objRv.value;
    assert input == Received(input.event, Some(input.obj.value), Some(v));
    EventAnnounced(h, w, input.event, input.obj.value, v);
    hide Inv, Gives, Advance, Announced;
  }

  lemma BookmarkIsQuiet(h: seq<Change>, w: World, input: Input)
    requires Inv(h, w) && Gives(h, w, input) && input.Received? && input.event == BOOKMARK && input.obj.Some?
    ensures MovedOn(h, w, Advance(h, w, input))
  {
    EventStep(h, w, BOOKMARK, input.obj.value, input.objRv.value);
    hide AllKnown, Has, Mirrored, Cluster;
  }

  lemma NoChange(h: seq<Change>, w: World, input: Input)
    requires Inv(h, w) && Gives(h, w, input) && w.agent.phase.Watching?
    requires !(input.Received? && input.event != ERROR && input.obj.Some?)
    ensures MovedOn(h, w, Advance(h, w, input))
  {
    hide AllKnown, Has, Mirrored, Cluster;
  }

  lemma AnswerMovesOn(h: seq<Change>, w: World, input: Input)
    requires Inv(h, w) && Gives(h, w, input) && w.agent.phase.Watching?
    ensures MovedOn(h, w, Advance(h, w, input))
  {
    if !(input.Received? && input.event != ERROR && input.obj.Some?) {
      NoChange(h, w, input);
    } else if input.event == BOOKMARK {
      BookmarkIsQuiet(h, w, input);
    } else {
      EventIsAnnounced(h, w, input);
    }
  }

  /** While a watch is open, an answer makes one handler call exactly if it moves on to a change, and the call is
      the right one for that change; an answer without a change makes none. */
  lemma WatchCallsTheRightHandler(h: seq<Change>, inputs: seq<Input>, input: Input)
    requires Possible(h, inputs + [input]) && After(h, inputs).agent.phase.Watching?
    ensures MovedOn(h, After(h, inputs), After(h, inputs + [input]))
  {
    AfterExtends(h, inputs, input);
    InvHolds(h, inputs);
    AnswerMovesOn(h, After(h, inputs), input);
  }

  lemma StillHasCursor(h: seq<Change>, w: World, input: Input)
    requires Inv(h, w) && Gives(h, w, input) && !Breaks(input) && w.agent.phase.Watching?
    ensures Cursor(Advance(h, w, input).agent) == Some(Advance(h, w, input).high)
  {
    hide AllKnown, Has, Mirrored, Cluster;
  }

  lemma HasNoWatch(agent: State)
    requires Cursor(agent).Some? && !agent.phase.Watching?
    ensures agent.phase.Opening?
  {
  }

  lemma NothingDelivered(h: seq<Change>, w: World, input: Input)
    requires Inv(h, w) && Gives(h, w, input) && !Breaks(input) && w.agent.phase.Opening?
    ensures var w' := Advance(h, w, input);
            MovedOn(h, w, w') && Cursor(w'.agent) == Some(w'.high)
  {
    hide AllKnown, Has, Mirrored, Cluster;
  }

  lemma DeliveredSoFar(h: seq<Change>, a: nat, w: World, w': World, k: nat)
    requires MovedOn(h, w, w') && a <= w.high && k <= |w.agent.calls|
    requires Delivers(h, a, w.high, w.agent.calls[k..])
    ensures w.high <= w'.high <= |h| && w.agent.calls <= w'.agent.calls
    ensures Delivers(h, a, w'.high, w'.agent.calls[k..])
  {
    hide Delivers, Announced;
    var before, after := w.agent.calls, w'.agent.calls;
    if after == before {
      QuietDelivers(h, a, w.high, w'.high, before[k..]);
    } else {
      assert after[k..] == before[k..] + [after[|before|]];
      ChangeDelivers(h, a, w.high, w'.high, before[k..], after[|before|]);
    }
  }

  /** The calls from the k-th on follow the changes after version a, and one more answer keeps it so. */
  lemma OneMoreAnswer(h: seq<Change>, inputs: seq<Input>, input: Input, a: nat, k: nat)
    requires Possible(h, inputs + [input]) && !Breaks(input)
    requires var w := After(h, inputs);
             && Cursor(w.agent).Some? && a <= w.high <= |h| && k <= |w.agent.calls|
             && Delivers(h, a, w.high, w.agent.calls[k..])
    ensures var w, w' := After(h, inputs), After(h, inputs + [input]);
            && Cursor(w'.agent) == Some(w'.high) && w.high <= w'.high <= |h| && w.agent.calls <= w'.agent.calls
            && Delivers(h, a, w'.high, w'.agent.calls[k..])
  {
    AfterExtends(h, inputs, input);
    InvHolds(h, inputs);
    var w, w' := After(h, inputs), After(h, inputs + [input]);
    assert Gives(h, w, input) && w' == Advance(h, w, input);
    hide *;
    if w.agent.phase.Watching? {
      WatchCallsTheRightHandler(h, inputs, input);
      StillHasCursor(h, w, input);
    } else {
      HasNoWatch(w.agent);
      NothingDelivered(h, w, input);
    }
    DeliveredSoFar(h, a, w, w', k);
  }

  /** From any cursor on, as long as nothing breaks, the watcher calls the handlers once for each later change of
      the cluster, in order, however often the stream closes and is opened again. */
  lemma {:induction false} EveryChangeIsDelivered(h: seq<Change>, before: seq<Input>, more: seq<Input>)
    requires Possible(h, before + more) && Cursor(After(h, before).agent).Some?
    requires forall i :: 0 <= i < |more| ==> !Breaks(more[i])
    ensures var w, w' := After(h, before), After(h, before + more);
            && Cursor(w'.agent) == Some(w'.high) && w.high <= w'.high <= |h|
            && w.agent.calls <= w'.agent.calls
            && Delivers(h, w.high, w'.high, w'.agent.calls[|w.agent.calls|..])
  {
    if more == [] {
      assert before + more == before;
      InvHolds(h, before);
    } else {
      var init, input := more[..|more| - 1], more[|more| - 1];
      assert before + more == before + init + [input];
      AfterExtends(h, before + init, input);
      hide After, Possible, Gives, Advance, Delivers, Cursor;
      EveryChangeIsDelivered(h, before, init);
      OneMoreAnswer(h, before + init, input, After(h, before).high, |After(h, before).agent.calls|);
    }
  }

  // ---- Lists ----

  function AllItems(pages: seq<Input>): seq<Object>
    requires forall i :: 0 <= i < |pages| ==> pages[i].ListPage?
  {
    if pages == [] then [] else AllItems(pages[..|pages| - 1]) + pages[|pages| - 1].items
  }

  /** A page chain: every page but the last points to a next one. */
  ghost predicate Chain(pages: seq<Input>) {
    && (forall i :: 0 <= i < |pages| ==> pages[i].ListPage?)
    && (forall i :: 0 <= i < |pages| - 1 ==> pages[i].cont != "")
  }

  lemma UidsJoin(a: seq<Object>, b: seq<Object>)
    ensures Uids(a + b) == Uids(a) + Uids(b)
  {
    var items := a + b;
    forall uid | uid in Uids(a) + Uids(b)
      ensures uid in Uids(items)
    {
      if uid in Uids(a) {
        var i :| 0 <= i < |a| && a[i].uid == uid;
        assert items[i].uid == uid;
      } else {
        var i :| 0 <= i < |b| && b[i].uid == uid;
        assert items[|a| + i].uid == uid;
      }
    }
  }

  lemma PagesJoin(pool: Objects, a: seq<Object>, b: seq<Object>)
    requires PageOf(pool, a) && PageOf(pool - Uids(a), b)
    ensures PageOf(pool, a + b)
  {
    forall i, j | 0 <= i < |a| && 0 <= j < |b|
      ensures a[i].uid != b[j].uid
    {
      assert a[i].uid in Uids(a);
    }
  }

  /** The pages so far are disjoint parts of one snapshot, and what they leave out is still to come. */
  ghost predicate Listed(h: seq<Change>, calls: seq<Call>, w: World, items: seq<Object>) {
    && w.high <= |h|
    && w.agent.calls == calls + AddCalls(items)
    && PageOf(Cluster(h, w.high), items)
    && w.rest == Cluster(h, w.high) - Uids(items)
  }

  lemma FirstPage(h: seq<Change>, w: World, page: Input)
    requires Inv(h, w) && page.ListPage? && Gives(h, w, page) && w.agent.phase == Listing("")
    ensures Listed(h, w.agent.calls, Advance(h, w, page), page.items)
  {
    PageStep(h, w, page.items, page.rv.value, page.cont);
    hide Inv, Gives, Advance, Cluster, Uids, PageOf;
  }

  lemma NextPage(h: seq<Change>, calls: seq<Call>, w: World, items: seq<Object>, page: Input)
    requires Inv(h, w) && page.ListPage? && Gives(h, w, page) && w.agent.phase.cont != ""
    requires Listed(h, calls, w, items)
    ensures Listed(h, calls, Advance(h, w, page), items + page.items)
  {
    PageStep(h, w, page.items, page.rv.value, page.cont);
    var live := Cluster(h, w.high);
    assert Pool(h, w, page.rv) == w.rest;
    hide Inv, Gives, Advance, Cluster, Uids, PageOf, Pool, AddCalls;
    PagesJoin(live, items, page.items);
    UidsJoin(items, page.items);
    WithoutBoth(live, Uids(items), Uids(page.items));
    AddCallsJoin(calls, items, page.items);
  }

  lemma AddCallsJoin(calls: seq<Call>, a: seq<Object>, b: seq<Object>)
    ensures calls + AddCalls(a + b) == calls + AddCalls(a) + AddCalls(b)
  {
  }

  lemma WithoutBoth(objects: Objects, a: set<string>, b: set<string>)
    ensures objects - a - b == objects - (a + b)
  {
  }

  lemma AllItemsSnoc(init: seq<Input>, last: Input)
    requires Chain(init + [last])
    ensures Chain(init) && last.ListPage? && AllItems(init + [last]) == AllItems(init) + last.items
    ensures init != [] ==> init[|init| - 1].cont != ""
  {
    var pages := init + [last];
    assert pages[|init|] == last && forall i :: 0 <= i < |init| ==> pages[i] == init[i];
    assert pages[..|init|] == init;
  }

  lemma {:induction false} PagesSoFar(h: seq<Change>, before: seq<Input>, pages: seq<Input>)
    requires Chain(pages) && pages != [] && Possible(h, before + pages)
    requires After(h, before).agent.phase == Listing("")
    ensures var w', last := After(h, before + pages), pages[|pages| - 1];
            && Listed(h, After(h, before).agent.calls, w', AllItems(pages))
            && w'.agent.phase == (if last.cont == "" then Opening(Some(w'.high)) else Listing(last.cont))
            && (last.cont == "" ==> w'.rest.Keys == {})
  {
    var init, last := pages[..|pages| - 1], pages[|pages| - 1];
    assert init + [last] == pages && before + pages == before + init + [last];
    AllItemsSnoc(init, last);
    AfterExtends(h, before + init, last);
    InvHolds(h, before + init);
    var w := After(h, before + init);
    hide After, Possible, Listed, Inv, Gives, Advance, Chain, AllItems;
    PageEnds(h, w, last);
    if init == [] {
      assert before + init == before;
      NoItems();
      FirstPage(h, w, last);
      assert [] + last.items == last.items;
    } else {
      PagesSoFar(h, before, init);
      NextPage(h, After(h, before).agent.calls, w, AllItems(init), last);
    }
  }

  lemma NoItems()
    ensures AllItems([]) == []
  {
  }

  lemma PageEnds(h: seq<Change>, w: World, page: Input)
    requires Inv(h, w) && page.ListPage? && Gives(h, w, page)
    ensures var w' := Advance(h, w, page);
            && w'.agent.phase == (if page.cont == "" then Opening(Some(w'.high)) else Listing(page.cont))
            && (page.cont == "" ==> w'.rest.Keys == {})
  {
    PageStep(h, w, page.items, page.rv.value, page.cont);
    hide Inv, Gives, Advance, Cluster, Uids, PageOf, Pool;
  }

  /** These calls add exactly the live objects, each once. */
  ghost predicate AddsExactly(live: Objects, calls: seq<Call>) {
    && (forall i :: 0 <= i < |calls| ==>
          calls[i].AddCall? && Get(live, calls[i].obj.uid) == Some(calls[i].obj.content))
    && (forall i, j :: 0 <= i < j < |calls| ==> calls[i].obj.uid != calls[j].obj.uid)
    && (forall uid :: uid in live ==> exists i :: 0 <= i < |calls| && calls[i].obj.uid == uid)
  }

  lemma PageAddsExactly(live: Objects, items: seq<Object>)
    requires PageOf(live, items) && live.Keys <= Uids(items)
    ensures AddsExactly(live, AddCalls(items))
  {
    var calls := AddCalls(items);
    forall uid | uid in live
      ensures exists i :: 0 <= i < |calls| && calls[i].obj.uid == uid
    {
      var i :| 0 <= i < |items| && items[i].uid == uid;
      assert calls[i].obj.uid == uid;
    }
  }

  /** A whole chain delivers one snapshot: every object live at its version once, as an add, and nothing else; the
      watch continues from that version. */
  lemma PagedListIsComplete(h: seq<Change>, before: seq<Input>, pages: seq<Input>)
    requires Chain(pages) && pages != [] && pages[|pages| - 1].cont == "" && Possible(h, before + pages)
    requires After(h, before).agent.phase == Listing("")
    ensures var w, w' := After(h, before), After(h, before + pages);
            && w'.high <= |h| && w'.agent.phase == Opening(Some(w'.high)) && w.agent.calls <= w'.agent.calls
            && AddsExactly(Cluster(h, w'.high), w'.agent.calls[|w.agent.calls|..])
  {
    PagesSoFar(h, before, pages);
    var w, w', items := After(h, before), After(h, before + pages), AllItems(pages);
    hide After, Possible, Cluster, AddsExactly, PageOf, Uids;
    assert w'.agent.calls[|w.agent.calls|..] == AddCalls(items);
    assert forall uid :: uid in Cluster(h, w'.high) && uid !in Uids(items) ==> uid in w'.rest.Keys;
    PageAddsExactly(Cluster(h, w'.high), items);
  }

  /** A failed list call or an ERROR event starts a new list from its first page: the next page is again drawn
      from a whole snapshot. */
  lemma BreakStartsANewList(h: seq<Change>, inputs: seq<Input>, failure: Input, page: Input)
    requires Breaks(failure) && Possible(h, inputs + [failure])
    ensures var w := After(h, inputs + [failure]);
            && w.agent.phase == Listing("") && w.agent.calls == After(h, inputs).agent.calls
            && (page.ListPage? && Gives(h, w, page) ==>
                  && page.rv.Some? && w.high <= page.rv.value <= |h|
                  && PageOf(Cluster(h, page.rv.value), page.items))
  {
    AfterExtends(h, inputs, failure);
    hide After, Possible, PageOf, Cluster;
  }

  // ---- Cursors, for any answers whatever ----

  /** An event that carries a version of its own. */
  predicate Versioned(input: Input) {
    input.Received? && input.event != ERROR && input.obj.Some? && input.objRv.Some?
  }

  ghost predicate LastVersioned(events: seq<Input>, i: nat)
    requires i < |events|
  {
    Versioned(events[i]) && forall j :: i < j < |events| ==> !Versioned(events[j])
  }

  function LastVersion(start: Version, events: seq<Input>): Version {
    if events == [] then start
    else if Versioned(events[|events| - 1]) then events[|events| - 1].objRv
    else LastVersion(start, events[..|events| - 1])
  }

  lemma {:induction false} LastVersionAt(start: Version, events: seq<Input>, i: nat)
    requires i < |events| && LastVersioned(events, i)
    ensures LastVersion(start, events) == events[i].objRv
  {
    if i < |events| - 1 {
      assert !Versioned(events[|events| - 1]);
      LastVersionAt(start, events[..|events| - 1], i);
    }
  }

  lemma {:induction false} NoVersionAtAll(start: Version, events: seq<Input>)
    requires forall i :: 0 <= i < |events| ==> !Versioned(events[i])
    ensures LastVersion(start, events) == start
  {
    if events != [] {
      NoVersionAtAll(start, events[..|events| - 1]);
    }
  }

  lemma {:induction false} EventsMoveTheCursor(before: seq<Input>, events: seq<Input>)
    requires Trace(before).phase.Watching?
    requires forall i :: 0 <= i < |events| ==> events[i].Received? && events[i].event != ERROR
    ensures Trace(before + events).phase == Watching(LastVersion(Trace(before).phase.cursor, events))
  {
    if events == [] {
      assert before + events == before;
    } else {
      var init, last := events[..|events| - 1], events[|events| - 1];
      assert before + events == before + init + [last];
      hide Trace, Versioned;
      EventsMoveTheCursor(before, init);
      EventMovesTheCursor(Trace(before + init), last);
      TraceSnoc(before + init, last);
    }
  }

  /** While events come in, the cursor is the last version one of them carried, of whatever type; without any it
      is the version the watch was opened with. */
  lemma CursorIsTheLastVersion(before: seq<Input>, events: seq<Input>)
    requires Trace(before).phase.Watching?
    requires forall i :: 0 <= i < |events| ==> events[i].Received? && events[i].event != ERROR
    ensures var s, s' := Trace(before), Trace(before + events);
            && s'.phase.Watching?
            && ((forall i :: 0 <= i < |events| ==> !Versioned(events[i])) ==> s'.phase == s.phase)
            && (forall i :: 0 <= i < |events| && LastVersioned(events, i) ==> s'.phase.cursor == events[i].objRv)
  {
    EventsMoveTheCursor(before, events);
    hide Trace, Versioned, LastVersioned;
    var start := Trace(before).phase.cursor;
    if forall i :: 0 <= i < |events| ==> !Versioned(events[i]) {
      NoVersionAtAll(start, events);
    }
    forall i | 0 <= i < |events| && LastVersioned(events, i)
      ensures LastVersion(start, events) == events[i].objRv
    {
      LastVersionAt(start, events, i);
    }
  }

  lemma TraceSnoc(inputs: seq<Input>, input: Input)
    ensures Trace(inputs + [input]) == Watcher.Step(Trace(inputs), input)
  {
    assert (inputs + [input])[..|inputs|] == inputs;
  }

  lemma EventMovesTheCursor(s: State, input: Input)
    requires s.phase.Watching? && input.Received? && input.event != ERROR
    ensures Watcher.Step(s, input).phase == if Versioned(input) then Watching(input.objRv) else s.phase
  {
  }

  /** An event of one of the three types with an object calls its handler, with or without a version; no other event
      calls one. */
  lemma EventTypesHaveHandlers(inputs: seq<Input>, input: Input)
    requires Trace(inputs).phase.Watching? && input.Received?
    ensures var calls, calls' := Trace(inputs).calls, Trace(inputs + [input]).calls;
            match input.obj
            case None => calls' == calls
            case Some(obj) =>
              && (input.event == ADDED ==> calls' == calls + [AddCall(obj)])
              && (input.event == MODIFIED ==> calls' == calls + [UpdateCall(obj)])
              && (input.event == DELETED ==> calls' == calls + [DeleteCall(obj)])
              && (input.event !in {ADDED, MODIFIED, DELETED} ==> calls' == calls)
  {
    assert (inputs + [input])[..|inputs|] == inputs;
  }

  /** A closed stream and a failed watch call come back to the same cursor; without one they lead to a new list. */
  lemma ReconnectKeepsTheCursor(inputs: seq<Input>, input: Input)
    requires Answers(Trace(inputs).phase, input) && (input.Closed? || input.WatchFailed?)
    ensures var s, s' := Trace(inputs), Trace(inputs + [input]);
            && s'.calls == s.calls
            && s'.phase == if Cursor(s).Some? then Opening(Cursor(s)) else Listing("")
  {
    assert (inputs + [input])[..|inputs|] == inputs;
  }
}
