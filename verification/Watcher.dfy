/** The no-cache watcher of common/pkg/controllers/dynamiccontroller: page through a LIST, follow a WATCH from
    a version cursor, reconnect, back off and relist. Sleeps are in seconds. */
module Watcher {
  import opened Common

  datatype Object = Object(uid: string, content: string)

  /** A resource version; None is Go's empty string. */
  type Version = Option<nat>

  datatype EventType = ADDED | MODIFIED | DELETED | BOOKMARK | ERROR | UNKNOWN

  /** What the API server answers. `obj` is None when the event carries no unstructured object. */
  datatype Input =
    | ListFailed
    | ListPage(items: seq<Object>, rv: Version, cont: string)
    | WatchFailed
    | WatchOpened
    | Received(event: EventType, obj: Option<Object>, objRv: Version)
    | Closed

  datatype Call = AddCall(obj: Object) | UpdateCall(obj: Object) | DeleteCall(obj: Object)

  /** The call to the API server that is pending, with the argument it carries. */
  datatype Phase = Listing(cont: string) | Opening(rv: Version) | Watching(cursor: Version)

  datatype State = State(phase: Phase, backoff: nat, calls: seq<Call>, sleeps: seq<nat>)

  const START := State(Listing(""), 1, [], [])

  /** Where the outer loop goes with this version: an empty one means a new list. */
  function Resume(rv: Version): Phase {
    if rv.None? then Listing("") else Opening(rv)
  }

  function IncreaseBackoff(backoff: nat): nat {
    if backoff < 30 then backoff * 2 else backoff
  }

  function Failed(s: State, phase: Phase): State {
    s.(phase := phase, sleeps := s.sleeps + [s.backoff], backoff := IncreaseBackoff(s.backoff))
  }

  function AddCalls(items: seq<Object>): (calls: seq<Call>)
    ensures |calls| == |items|
    ensures forall i :: 0 <= i < |items| ==> calls[i] == AddCall(items[i])
  {
    seq(|items|, i requires 0 <= i < |items| => AddCall(items[i]))
  }

  function CallFor(event: EventType, obj: Object): seq<Call> {
    match event
    case ADDED => [AddCall(obj)]
    case MODIFIED => [UpdateCall(obj)]
    case DELETED => [DeleteCall(obj)]
    case _ => []
  }

  /** Whether this input answers the pending call. */
  predicate Answers(phase: Phase, input: Input) {
    match phase
    case Listing(_) => input.ListFailed? || input.ListPage?
    case Opening(_) => input.WatchFailed? || input.WatchOpened?
    case Watching(_) => input.Received? || input.Closed?
  }

  function Step(s: State, input: Input): State {
    if !Answers(s.phase, input) then s else
    match input
    case ListFailed => Failed(s, Listing(""))
    case ListPage(items, rv, cont) =>
      s.(phase := if cont == "" then Opening(rv) else Listing(cont), backoff := 1, calls := s.calls + AddCalls(items))
    case WatchFailed => Failed(s, Resume(s.phase.rv))
    case WatchOpened => s.(phase := Watching(s.phase.rv), backoff := 1)
    case Closed => s.(phase := Resume(s.phase.cursor))
    case Received(ERROR, _, _) => s.(phase := Listing(""))
    case Received(event, None, _) => s
    case Received(event, Some(obj), rv) =>
      s.(phase := Watching(if rv.Some? then rv else s.phase.cursor), calls := s.calls + CallFor(event, obj))
  }

  function Trace(inputs: seq<Input>): State {
    if inputs == [] then START else Step(Trace(inputs[..|inputs| - 1]), inputs[|inputs| - 1])
  }

  /** `script` is everything the API server will answer; when it is used up, the stop channel is closed. */
  class DynamicController {
    const script: seq<Input>
    var pos: nat
    var calls: seq<Call>
    var sleeps: seq<nat>

    constructor (script: seq<Input>)
      ensures this.script == script && pos == 0 && calls == [] && sleeps == []
    {
      this.script := script;
      pos, calls, sleeps := 0, [], [];
    }

    /** Everything answered so far led here. */
    ghost predicate At(phase: Phase, backoff: nat)
      reads this
    {
      pos <= |script| && Trace(script[..pos]) == State(phase, backoff, calls, sleeps)
    }

    predicate ShouldStop()
      reads this
    {
      pos >= |script|
    }

    /** Block until the pending call is answered, or the stop channel closes. */
    method Await(phase: Phase, ghost backoff: nat) returns (reply: Option<Input>)
      requires At(phase, backoff)
      modifies this`pos
      ensures old(pos) <= pos <= |script|
      ensures reply.None? ==> pos == |script| && At(phase, backoff)
      ensures reply.Some? ==> old(pos) < pos && reply.value == script[pos - 1] && Answers(phase, reply.value)
      ensures reply.Some? ==> Trace(script[..pos]) == Step(State(phase, backoff, calls, sleeps), reply.value)
    {
      while pos < |script|
        invariant old(pos) <= pos && At(phase, backoff)
      {
        var input := script[pos];
        assert script[..pos + 1][..pos] == script[..pos];
        pos := pos + 1;
        if Answers(phase, input) {
          return Some(input);
        }
      }
      return None;
    }

    method NoCacheInitialList(backoff: nat) returns (rv: Version, ok: bool, backoff': nat, ghost phase: Phase)
      requires At(Listing(""), backoff)
      modifies this
      ensures old(pos) <= pos && At(phase, backoff')
      ensures ok ==> phase == Opening(rv)
      ensures !ok ==> pos == |script| || (phase == Listing("") && old(pos) < pos)
    {
      var cont := "";
      backoff' := backoff;
      while true
        invariant old(pos) <= pos && At(Listing(cont), backoff')
        decreases |script| - pos
      {
        if ShouldStop() {
          return None, false, backoff', Listing(cont);
        }
        var reply := Await(Listing(cont), backoff');
        if reply.None? {
          return None, false, backoff', Listing(cont);
        }
        if reply.value.ListFailed? {
          sleeps := sleeps + [backoff'];
          backoff' := IncreaseBackoff(backoff');
          return None, false, backoff', Listing("");
        }
        backoff' := 1;
        var items := reply.value.items;
        ghost var before := calls;
        label Page:
        for i := 0 to |items|
          invariant calls == before + AddCalls(items)[..i]
          invariant pos == old@Page(pos) && sleeps == old@Page(sleeps)
        {
          calls := calls + [AddCall(items[i])];
        }
        assert AddCalls(items)[..|items|] == AddCalls(items);
        rv := reply.value.rv;
        cont := reply.value.cont;
        if cont == "" {
          return rv, true, backoff', Opening(rv);
        }
      }
    }

    method NoCacheWatch(resourceVersion: Version, backoff: nat)
      returns (rv: Version, forceRelist: bool, backoff': nat, ghost phase: Phase)
      requires At(Opening(resourceVersion), backoff)
      modifies this
      ensures old(pos) <= pos && At(phase, backoff')
      ensures pos == |script| || (old(pos) < pos && phase == if forceRelist then Listing("") else Resume(rv))
    {
      rv, backoff' := resourceVersion, backoff;
      var answer := Await(Opening(rv), backoff');
      if answer.None? {
        return rv, false, backoff', Opening(rv);
      }
      if answer.value.WatchFailed? {
        sleeps := sleeps + [backoff'];
        backoff' := IncreaseBackoff(backoff');
        return rv, false, backoff', Resume(rv);
      }
      backoff' := 1;
      while true
        invariant old(pos) < pos && At(Watching(rv), backoff')
        decreases |script| - pos
      {
        var reply := Await(Watching(rv), backoff');
        if reply.None? {
          return rv, false, backoff', Watching(rv);
        }
        if reply.value.Closed? {
          return rv, false, backoff', Resume(rv);
        }
        var evt := reply.value;
        if evt.obj.None? {
          if evt.event == ERROR {
            return None, true, backoff', Listing("");
          }
          continue;
        }
        var u := evt.obj.value;
        if evt.objRv != None {
          rv := evt.objRv;
        }
        match evt.event
        case ADDED => calls := calls + [AddCall(u)];
        case MODIFIED => calls := calls + [UpdateCall(u)];
        case DELETED => calls := calls + [DeleteCall(u)];
        case ERROR => return None, true, backoff', Listing("");
        case _ =>
      }
    }

    /** The handler calls and the sleeps are those of the trace of everything the server answered. */
    method RunNoCacheWatcher()
      requires pos == 0 && calls == [] && sleeps == []
      modifies this
      ensures calls == Trace(script).calls && sleeps == Trace(script).sleeps
    {
      var backoff := 1;
      var resourceVersion: Version := None;
      ghost var phase := Resume(resourceVersion);
      while true
        invariant At(phase, backoff) && (pos == |script| || phase == Resume(resourceVersion))
        decreases |script| - pos
      {
        assert script[..|script|] == script;
        if ShouldStop() {
          return;
        }
        if resourceVersion == None {
          var rv, ok;
          rv, ok, backoff, phase := NoCacheInitialList(backoff);
          if !ok {
            continue;
          }
          resourceVersion := rv;
        }
        var rv, forceRelist;
        rv, forceRelist, backoff, phase := NoCacheWatch(resourceVersion, backoff);
        if ShouldStop() {
          return;
        }
        if forceRelist {
          resourceVersion := None;
          continue;
        }
        resourceVersion := rv;
      }
    }
  }
}
