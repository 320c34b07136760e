/** Several watchers, one for each resource type, over one cache, one store and one clean-up. */
module Fleet {
  import opened Common
  import Cache = ResourceCache
  import opened Replication
  import Suppression
  import opened Watcher
  import opened Mirror
  import opened CallLog
  import opened EndToEnd

  /** A watcher with the history it follows; after its first `ready` answers it held a cursor. */
  datatype Pipeline = Pipeline(history: seq<Change>, inputs: seq<Input>, ready: nat)

  /** A possible run, in which none of the uids known at start is born after the first cursor. */
  ghost predicate Sound(p: Pipeline, known: set<string>) {
    && Possible(p.history, p.inputs) && UidsNeverReused(p.history)
    && p.ready <= |p.inputs| && Cursor(Trace(p.inputs[..p.ready])).Some?
    && NoneBornAfter(p.history, known, Cursor(Trace(p.inputs[..p.ready])).value)
  }

  ghost predicate AllSound(fleet: seq<Pipeline>, known: set<string>) {
    forall i :: 0 <= i < |fleet| ==> Sound(fleet[i], known)
  }

  /** The handler calls for the objects of one watcher, in order; a uid belongs to one resource type. */
  function Owned(calls: seq<Call>, owner: string -> nat, j: nat): seq<Call> {
    if calls == [] then [] else
    var last := calls[|calls| - 1];
    Owned(calls[..|calls| - 1], owner, j) + if owner(last.obj.uid) == j then [last] else []
  }

  lemma OwnedSnoc(init: seq<Call>, call: Call, owner: string -> nat, j: nat)
    ensures Owned(init + [call], owner, j) == Owned(init, owner, j) + if owner(call.obj.uid) == j then [call] else []
  {
    assert (init + [call])[..|init|] == init;
  }

  /** What the calls mean for a uid is decided by the calls of its watcher. */
  lemma {:induction false} OwnerDecides(calls: seq<Call>, owner: string -> nat, uid: string)
    ensures var own := Owned(calls, owner, owner(uid));
            Get(Mirrored(calls), uid) == Get(Mirrored(own), uid) && (Touched(calls, uid) <==> Touched(own, uid))
  {
    if calls == [] {
    } else {
      var init, call := calls[..|calls| - 1], calls[|calls| - 1];
      var own := Owned(init, owner, owner(uid));
      assert init + [call] == calls && own + [] == own;
      hide Mirrored, Touched;
      OwnerDecides(init, owner, uid);
      MirroredSnoc(init, call, uid);
      MirroredSnoc(own, call, uid);
      TouchedSnoc(init, call, uid);
      TouchedSnoc(own, call, uid);
      OwnedSnoc(init, call, owner, owner(uid));
    }
  }

  lemma {:induction false} OwnedHas(calls: seq<Call>, owner: string -> nat, i: nat)
    requires i < |calls|
    ensures calls[i] in Owned(calls, owner, owner(calls[i].obj.uid))
  {
    if i < |calls| - 1 {
      OwnedHas(calls[..|calls| - 1], owner, i);
    }
  }

  lemma {:induction false} OwnedGrows(calls: seq<Call>, n: nat, owner: string -> nat, j: nat)
    requires n <= |calls|
    ensures Owned(calls[..n], owner, j) <= Owned(calls, owner, j)
  {
    if n == |calls| {
      assert calls[..n] == calls;
    } else {
      assert calls[..|calls| - 1][..n] == calls[..n];
      OwnedGrows(calls[..|calls| - 1], n, owner, j);
    }
  }

  /** If no watcher's log brings a uid back, neither does the interleaving. */
  lemma InterleavingNeverReuses(calls: seq<Call>, owner: string -> nat)
    requires forall j: nat :: NoReuse(Owned(calls, owner, j))
    ensures NoReuse(calls)
  {
    forall i, m | 0 <= i < m < |calls| && calls[i].DeleteCall? && calls[i].obj.uid == calls[m].obj.uid
      ensures calls[m].DeleteCall?
    {
      var j, init := owner(calls[m].obj.uid), calls[..m];
      var own := Owned(init, owner, j);
      OwnedHas(init, owner, i);
      var a :| 0 <= a < |own| && own[a] == calls[i];
      assert init + [calls[m]] == calls[..m + 1];
      OwnedSnoc(init, calls[m], owner, j);
      OwnedGrows(calls, m + 1, owner, j);
      var all := Owned(calls, owner, j);
      assert all[a] == own[a] && all[|own|] == calls[m];
      assert NoReuse(all);
    }
  }

  /** The calls are an interleaving of what the watchers call, and by the k-th of them every watcher has made the
      calls after which it held a cursor. */
  ghost predicate Interleaves(calls: seq<Call>, k: nat, owner: string -> nat, fleet: seq<Pipeline>)
    requires k <= |calls|
  {
    forall j: nat ::
      if j < |fleet| then
        && Owned(calls, owner, j) == Trace(fleet[j].inputs).calls
        && fleet[j].ready <= |fleet[j].inputs|
        && Trace(fleet[j].inputs[..fleet[j].ready]).calls <= Owned(calls[..k], owner, j)
      else Owned(calls, owner, j) == []
  }

  /** What the store should hold for a uid: the hash in its own watcher's mirror. */
  function Expected(fleet: seq<Pipeline>, owner: string -> nat, digest: string -> string, uid: string): Option<string> {
    if owner(uid) < |fleet| then Get(Hashed(Mirrored(Trace(fleet[owner(uid)].inputs).calls), digest), uid) else None
  }

  lemma LogOfOwner(calls: seq<Call>, k: nat, owner: string -> nat, fleet: seq<Pipeline>, known: set<string>, j: nat)
    requires k <= |calls| && Interleaves(calls, k, owner, fleet) && AllSound(fleet, known)
    ensures NoReuse(Owned(calls, owner, j))
  {
    if j < |fleet| {
      LogInvHolds(fleet[j].history, fleet[j].inputs);
      AgentIsTrace(fleet[j].history, fleet[j].inputs);
    }
  }

  lemma NothingIsLate(calls: seq<Call>, k: nat, owner: string -> nat, fleet: seq<Pipeline>, s: Cache.State, uid: string)
    requires k <= |calls| && Interleaves(calls, k, owner, fleet) && AllSound(fleet, s.hashes.Keys)
    ensures !ListedLate(s, calls, k, uid)
  {
    if ListedLate(s, calls, k, uid) {
      var j := owner(uid);
      OwnerDecides(calls, owner, uid);
      OwnerDecides(calls[..k], owner, uid);
      if j < |fleet| {
        var p := fleet[j];
        var first := Trace(p.inputs[..p.ready]).calls;
        if Touched(first, uid) { TouchedPrefix(first, Owned(calls[..k], owner, j), uid); }
        DeliveredLate(p.history, p.inputs, p.ready, uid);
      }
    }
  }

  /** However the handler calls of the watchers interleave, with any gaps and relists, if every send is
      acknowledged and the clean-up runs (and is acknowledged) once all watchers have held a cursor, the ROR API
      ends with the union of the watchers' mirrors and nothing else. */
  lemma FleetConverges(fleet: seq<Pipeline>, owner: string -> nat, calls: seq<Call>, k: nat, s: Cache.State,
      acked: set<string>, digest: string -> string)
    requires k <= |calls| && Interleaves(calls, k, owner, fleet) && AllSound(fleet, s.hashes.Keys)
    requires StartUp(s) && s.remote.Keys == s.hashes.Keys <= acked
    ensures var view := Suppression.HashView(Run(s, SweptAfter(calls, k, digest, acked)).remote);
            forall uid :: Get(view, uid) == Expected(fleet, owner, digest, uid)
  {
    forall j: nat
      ensures NoReuse(Owned(calls, owner, j))
    {
      LogOfOwner(calls, k, owner, fleet, s.hashes.Keys, j);
    }
    InterleavingNeverReuses(calls, owner);
    forall uid
      ensures !ListedLate(s, calls, k, uid)
    {
      NothingIsLate(calls, k, owner, fleet, s, uid);
    }
    SweepLosesNothingIff(s, calls, k, digest, acked);
    forall uid
      ensures Get(Hashed(Mirrored(calls), digest), uid) == Expected(fleet, owner, digest, uid)
    {
      OwnerDecides(calls, owner, uid);
    }
  }
}
