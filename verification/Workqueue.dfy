/** The retry queue of internal/services/resourceupdate/workqueue.go. */
module Workqueue {
  import opened Common

  /** The three actions the handlers use; the Go type is a string, so anything else is Other. */
  datatype Action = Add | Update | Delete | Other(name: string)

  /** `body` stands for owner, API version, kind and the resource itself. */
  datatype ResourceUpdate = ResourceUpdate(uid: string, action: Action, hash: string, body: string) {
    predicate Sendable() { !action.Other? }
  }

  datatype Entry = Entry(submitted: int, retries: nat, update: ResourceUpdate)

  /** The first entry with this uid, or |q| when there is none. */
  function First(q: seq<Entry>, uid: string): (i: nat)
    ensures i <= |q|
    ensures i < |q| ==> q[i].update.uid == uid
    ensures forall j :: 0 <= j < i ==> q[j].update.uid != uid
  {
    if q == [] || q[0].update.uid == uid then 0 else 1 + First(q[1..], uid)
  }

  /** The index GetByUid reports: 0 both for "at the head" and for "absent". */
  function Position(q: seq<Entry>, uid: string): nat {
    if First(q, uid) < |q| then First(q, uid) else 0
  }

  function Added(q: seq<Entry>, u: ResourceUpdate, now: int): seq<Entry> {
    var i := Position(q, u.uid);
    if i > 0 then q[i := Entry(now, q[i].retries + 1, u)] else q + [Entry(now, 0, u)]
  }

  function Removed(q: seq<Entry>, uid: string): seq<Entry> {
    if uid == "" || q == [] then q else
    var i := Position(q, uid);
    q[..i] + q[i + 1..]
  }

  class Queue {
    var items: seq<Entry>

    constructor ()
      ensures items == []
    {
      items := [];
    }

    method GetByUid(uid: string) returns (found: Option<Entry>, id: nat)
      ensures id == Position(items, uid)
      ensures found.Some? <==> exists j :: 0 <= j < |items| && items[j].update.uid == uid
      ensures found.Some? ==> id < |items| && found.value == items[id] && items[id].update.uid == uid
      ensures found.None? ==> id == 0
    {
      for i := 0 to |items|
        invariant forall j :: 0 <= j < i ==> items[j].update.uid != uid
      {
        if items[i].update.uid == uid {
          return Some(items[i]), i;
        }
      }
      return None, 0;
    }

    method Add(u: ResourceUpdate, now: int)
      modifies this
      ensures items == Added(old(items), u, now)
    {
      var entry := Entry(now, 0, u);
      var found, id := GetByUid(u.uid);
      if id > 0 {
        entry := entry.(retries := found.value.retries + 1);
        items := items[id := entry];
      } else {
        items := items + [entry];
      }
    }

    method DeleteByUid(uid: string)
      modifies this
      ensures items == Removed(old(items), uid)
    {
      if uid == "" {
        return;
      }
      var kept: seq<Entry> := [];
      var _, id := GetByUid(uid);
      for i := 0 to |items|
        invariant items == old(items)
        invariant kept == if i <= id then items[..i] else items[..id] + items[id + 1..i]
      {
        if i != id {
          kept := kept + [items[i]];
        }
      }
      items := kept;
    }
  }

  ghost predicate FirstAt(q: seq<Entry>, uid: string, p: nat) {
    p < |q| && q[p].update.uid == uid && forall j :: 0 <= j < p ==> q[j].update.uid != uid
  }

  /** Add replaces the first entry of the uid where it stands, with a new time and one retry more, exactly when
      that entry is not the head; otherwise it appends, also when the head has the uid. */
  lemma AddedExactly(q: seq<Entry>, u: ResourceUpdate, now: int)
    ensures forall p: nat :: 0 < p && FirstAt(q, u.uid, p) ==> Added(q, u, now) == q[p := Entry(now, q[p].retries + 1, u)]
    ensures (forall p: nat :: FirstAt(q, u.uid, p) ==> p == 0) ==> Added(q, u, now) == q + [Entry(now, 0, u)]
  {
    assert First(q, u.uid) < |q| ==> FirstAt(q, u.uid, First(q, u.uid));
    forall p: nat | FirstAt(q, u.uid, p)
      ensures p == First(q, u.uid)
    {
    }
  }

  /** DeleteByUid leaves the entries of other uids alone exactly when its uid is queued (or nothing is):
      for an absent uid the reported index 0 makes it drop the head. */
  lemma DeleteTouchesOnlyItsUid(q: seq<Entry>, uid: string)
    requires uid != ""
    ensures (forall e: Entry :: e.update.uid != uid ==> multiset(Removed(q, uid))[e] == multiset(q)[e])
       <==> (q == [] || exists i :: 0 <= i < |q| && q[i].update.uid == uid)
  {
    if q != [] {
      var i := Position(q, uid);
      assert q == q[..i] + [q[i]] + q[i + 1..];
      assert multiset(Removed(q, uid)) == multiset(q) - multiset{q[i]};
      assert q[i] in multiset(q);
    }
  }

  // ---- Runs of queue operations ----

  datatype Op = AddOp(update: ResourceUpdate, now: int) | DeleteOp(uid: string)

  /** The queue after a sequence of operations on an empty one. */
  function Built(ops: seq<Op>): seq<Entry> {
    if ops == [] then [] else
    var q, op := Built(ops[..|ops| - 1]), ops[|ops| - 1];
    match op
    case AddOp(u, now) => Added(q, u, now)
    case DeleteOp(uid) => Removed(q, uid)
  }

  function Updates(q: seq<Entry>): (us: seq<ResourceUpdate>)
    ensures |us| == |q|
    ensures forall i :: 0 <= i < |q| ==> us[i] == q[i].update
  {
    seq(|q|, i requires 0 <= i < |q| => q[i].update)
  }

  ghost predicate OnlyAdds(ops: seq<Op>) {
    forall i :: 0 <= i < |ops| ==> ops[i].AddOp? && ops[i].update.Sendable()
  }

  /** The updates of an Add-only run, in the order they were added. */
  ghost function RawUpdates(ops: seq<Op>): (us: seq<ResourceUpdate>)
    requires OnlyAdds(ops)
    ensures |us| == |ops|
  {
    seq(|ops|, i requires 0 <= i < |ops| => ops[i].update)
  }

  // ---- What an update does to the ROR API's store ----

  datatype Stored = Stored(hash: string, body: string)
  type Remote = map<string, Stored>

  function Content(u: ResourceUpdate): Option<Stored> {
    if u.action.Delete? then None else Some(Stored(u.hash, u.body))
  }

  /** An acknowledged call: create and update store the resource, delete removes it. */
  function Apply(remote: Remote, u: ResourceUpdate): Remote {
    match u.action
    case Add => remote[u.uid := Stored(u.hash, u.body)]
    case Update => remote[u.uid := Stored(u.hash, u.body)]
    case Delete => remote - {u.uid}
    case Other(_) => remote
  }

  function Replay(remote: Remote, us: seq<ResourceUpdate>): Remote {
    if us == [] then remote else Apply(Replay(remote, us[..|us| - 1]), us[|us| - 1])
  }

  // ---- Coalescing preserves meaning ----

  /** The last index holding this uid, or -1. */
  function LastIndex(us: seq<ResourceUpdate>, uid: string): (i: int)
    ensures -1 <= i < |us|
    ensures i >= 0 ==> us[i].uid == uid
    ensures forall j :: i < j < |us| ==> us[j].uid != uid
  {
    if us == [] then -1
    else if us[|us| - 1].uid == uid then |us| - 1
    else LastIndex(us[..|us| - 1], uid)
  }

  /** Replaying decides each uid by its last update alone. */
  lemma {:induction false} ReplayAt(remote: Remote, us: seq<ResourceUpdate>, uid: string)
    requires forall u :: u in us ==> u.Sendable()
    ensures var i := LastIndex(us, uid);
            Get(Replay(remote, us), uid) == if i < 0 then Get(remote, uid) else Content(us[i])
  {
    if us != [] {
      var init, u := us[..|us| - 1], us[|us| - 1];
      ReplayAt(remote, init, uid);
      assert u.Sendable();
      assert Get(Apply(Replay(remote, init), u), uid) == if u.uid == uid then Content(u) else Get(Replay(remote, init), uid);
    }
  }

  /** Two entries share a uid only when it is the head's uid. */
  ghost predicate OnlyHeadRepeats(q: seq<Entry>) {
    forall i, j :: 0 <= i < j < |q| && q[i].update.uid == q[j].update.uid ==> q[i].update.uid == q[0].update.uid
  }

  lemma AddedKeepsShape(q: seq<Entry>, u: ResourceUpdate, now: int)
    requires OnlyHeadRepeats(q)
    ensures OnlyHeadRepeats(Added(q, u, now))
  {
    var q' := Added(q, u, now);
    assert forall i :: 0 <= i < |q| ==> q'[i].update.uid == q[i].update.uid;
  }

  lemma LastOfAdded(q: seq<Entry>, u: ResourceUpdate, now: int, uid: string)
    requires OnlyHeadRepeats(q)
    ensures var us, us' := Updates(q), Updates(Added(q, u, now));
            var i, i' := LastIndex(us, uid), LastIndex(us', uid);
            if uid == u.uid then i' >= 0 && us'[i'] == u
            else i' == i && (i >= 0 ==> us'[i] == us[i])
  {
    var us, us' := Updates(q), Updates(Added(q, u, now));
    var p := Position(q, u.uid);
    if uid == u.uid && p > 0 {
      assert us'[p] == u;
      assert forall j :: p < j < |q| ==> q[j].update.uid != uid;
    } else if uid == u.uid {
      assert us'[|q|] == u;
    } else {
      var i, i' := LastIndex(us, uid), LastIndex(us', uid);
      assert i >= 0 ==> us'[i] == us[i];
      assert i' >= 0 ==> i' < |us| && us[i'] == us'[i'];
    }
  }

  lemma {:induction false} BuiltShape(ops: seq<Op>)
    requires OnlyAdds(ops)
    ensures OnlyHeadRepeats(Built(ops))
    ensures forall e :: e in Built(ops) ==> e.update.Sendable()
  {
    if ops != [] {
      var init, op := ops[..|ops| - 1], ops[|ops| - 1];
      hide OnlyHeadRepeats;
      BuiltShape(init);
      assert op.update.Sendable();
      AddedKeepsShape(Built(init), op.update, op.now);
    }
  }

  lemma LastIndexSnoc(us: seq<ResourceUpdate>, u: ResourceUpdate, uid: string)
    ensures LastIndex(us + [u], uid) == if u.uid == uid then |us| else LastIndex(us, uid)
  {
    assert (us + [u])[..|us|] == us;
  }

  /** The last entry the queue holds for a uid is the last update added for it. */
  lemma {:induction false} BuiltByAdds(ops: seq<Op>, uid: string)
    requires OnlyAdds(ops)
    ensures var us, raw := Updates(Built(ops)), RawUpdates(ops);
            var i, r := LastIndex(us, uid), LastIndex(raw, uid);
            (i < 0 <==> r < 0) && (i >= 0 ==> us[i] == raw[r])
  {
    if ops != [] {
      var init, op := ops[..|ops| - 1], ops[|ops| - 1];
      assert RawUpdates(ops) == RawUpdates(init) + [op.update];
      BuiltShape(init);
      hide OnlyHeadRepeats, LastIndex, Updates, RawUpdates, Added;
      BuiltByAdds(init, uid);
      LastOfAdded(Built(init), op.update, op.now, uid);
      LastIndexSnoc(RawUpdates(init), op.update, uid);
    }
  }

  /** Coalescing preserves meaning: replaying the queue onto any store gives what replaying every added
      update would, and only the head's uid can be queued twice. */
  lemma CoalescingPreservesMeaning(ops: seq<Op>, remote: Remote)
    requires OnlyAdds(ops)
    ensures Replay(remote, Updates(Built(ops))) == Replay(remote, RawUpdates(ops))
    ensures OnlyHeadRepeats(Built(ops))
  {
    var queued, raw := Replay(remote, Updates(Built(ops))), Replay(remote, RawUpdates(ops));
    BuiltShape(ops);
    forall uid
      ensures Get(queued, uid) == Get(raw, uid)
    {
      BuiltByAdds(ops, uid);
      ReplayAt(remote, Updates(Built(ops)), uid);
      ReplayAt(remote, RawUpdates(ops), uid);
    }
    forall uid
      ensures uid in queued <==> uid in raw
      ensures uid in queued ==> queued[uid] == raw[uid]
    {
      assert Get(queued, uid) == Get(raw, uid);
    }
  }

  // ---- Retry accounting ----

  function Weight(q: seq<Entry>): nat {
    if q == [] then 0 else Weight(q[..|q| - 1]) + q[|q| - 1].retries + 1
  }

  lemma {:induction false} WeightSplit(q: seq<Entry>, i: nat)
    requires i < |q|
    ensures Weight(q) == Weight(q[..i]) + q[i].retries + 1 + Weight(q[i + 1..])
  {
    if i < |q| - 1 {
      var init := q[..|q| - 1];
      WeightSplit(init, i);
      assert init[..i] == q[..i] && init[i + 1..] == q[i + 1..][..|q| - i - 2];
    } else {
      assert q[i + 1..] == [];
    }
  }

  lemma {:induction false} WeightJoin(a: seq<Entry>, b: seq<Entry>)
    ensures Weight(a + b) == Weight(a) + Weight(b)
  {
    if b == [] {
      assert a + b == a;
    } else {
      assert (a + b)[..|a + b| - 1] == a + b[..|b| - 1];
      WeightJoin(a, b[..|b| - 1]);
    }
  }

  /** The weight of every entry that some DeleteByUid of the run dropped. */
  function DroppedWeight(ops: seq<Op>): nat {
    if ops == [] then 0 else
    var init, op := ops[..|ops| - 1], ops[|ops| - 1];
    var q := Built(init);
    DroppedWeight(init) +
    if op.DeleteOp? && op.uid != "" && q != [] then q[Position(q, op.uid)].retries + 1 else 0
  }

  function AddCount(ops: seq<Op>): nat {
    if ops == [] then 0 else AddCount(ops[..|ops| - 1]) + if ops[|ops| - 1].AddOp? then 1 else 0
  }

  /** Retries are conserved: every Add is one unit of weight, in the queue or in a dropped entry. */
  lemma {:induction false} RetriesConserved(ops: seq<Op>)
    ensures Weight(Built(ops)) + DroppedWeight(ops) == AddCount(ops)
  {
    if ops != [] {
      var init, op := ops[..|ops| - 1], ops[|ops| - 1];
      RetriesConserved(init);
      var q, q' := Built(init), Built(ops);
      if op.AddOp? && Position(q, op.update.uid) == 0 {
        assert q'[..|q|] == q;
      } else if q != [] {
        var i := Position(q, if op.AddOp? then op.update.uid else op.uid);
        WeightSplit(q, i);
        if op.AddOp? {
          WeightSplit(q', i);
          assert q'[..i] == q[..i] && q'[i + 1..] == q[i + 1..];
        } else if op.uid != "" {
          WeightJoin(q[..i], q[i + 1..]);
        }
      }
    }
  }
}
