/** The exact effect of one drain of the retry queue. */
module Drain {
  import opened Workqueue
  import opened HashList
  import opened ResourceCache

  /** DeleteByUid never removes an entry without a uid. */
  function EmptyUids(q: seq<Entry>): (r: seq<Entry>)
    ensures forall e :: e in r ==> e in q && e.update.uid == ""
    ensures forall e :: e in q && e.update.uid == "" ==> e in r
  {
    if q == [] then []
    else EmptyUids(q[..|q| - 1]) + if q[|q| - 1].update.uid == "" then [q[|q| - 1]] else []
  }

  function HashesAfter(hs: Hashes, us: seq<ResourceUpdate>): Hashes {
    if us == [] then hs
    else HashUpdated(HashesAfter(hs, us[..|us| - 1]), us[|us| - 1].uid, us[|us| - 1].hash)
  }

  /** The hash list after acknowledged retries: each uid has the hash of its last retry, also after a delete. */
  lemma {:induction false} HashesAfterAt(hs: Hashes, us: seq<ResourceUpdate>, uid: string)
    ensures var i, after := LastIndex(us, uid), HashesAfter(hs, us);
            && (uid in after <==> uid in hs || i >= 0)
            && (uid in after ==>
                  && after[uid].hash == (if i >= 0 then us[i].hash else hs[uid].hash)
                  && (after[uid].active <==> uid !in hs || hs[uid].active))
  {
    if us != [] {
      HashesAfterAt(hs, us[..|us| - 1], uid);
    }
  }

  /** The state once the first i entries of the queue are acknowledged. */
  function Reached(s: State, i: nat): State
    requires i <= |s.queue|
  {
    var done := Updates(s.queue[..i]);
    s.(remote := Replay(s.remote, done), hashes := HashesAfter(s.hashes, done),
       queue := EmptyUids(s.queue[..i]) + s.queue[i..])
  }

  lemma RemoveAfterEmptyUids(kept: seq<Entry>, e: Entry, tail: seq<Entry>)
    requires forall j :: 0 <= j < |kept| ==> kept[j].update.uid == ""
    requires e.update.uid != ""
    ensures var live := kept + [e] + tail;
            First(live, e.update.uid) == |kept| && Removed(live, e.update.uid) == kept + tail
  {
    var live := kept + [e] + tail;
    assert live[|kept|] == e;
    assert live[..|kept|] == kept && live[|kept| + 1..] == tail;
  }

  /** The entry DeleteByUid finds after a retry is the retried one itself, never a wrong head. */
  lemma RetryFindsItsOwnEntry(q: seq<Entry>, i: nat)
    requires i < |q|
    ensures var uid, live := q[i].update.uid, EmptyUids(q[..i]) + q[i..];
            && (uid != "" ==> First(live, uid) < |live| && live[Position(live, uid)] == q[i])
            && Removed(live, uid) == EmptyUids(q[..i + 1]) + q[i + 1..]
  {
    var kept := EmptyUids(q[..i]);
    assert q[..i + 1][..i] == q[..i];
    assert kept + q[i..] == kept + [q[i]] + q[i + 1..];
    if q[i].update.uid != "" {
      assert forall j :: 0 <= j < |kept| ==> kept[j] in kept;
      RemoveAfterEmptyUids(kept, q[i], q[i + 1..]);
    }
  }

  lemma NothingReached(s: State)
    ensures Reached(s, 0) == s
  {
    assert [] + s.queue[0..] == s.queue;
  }

  lemma RetryReaches(s: State, i: nat)
    requires i < |s.queue|
    ensures Retried(Reached(s, i), s.queue[i].update) == Reached(s, i + 1)
  {
    RetryFindsItsOwnEntry(s.queue, i);
    assert Updates(s.queue[..i + 1])[..i] == Updates(s.queue[..i]);
  }

  lemma {:induction false} DrainFromReached(s: State, i: nat, acks: seq<bool>, now: int)
    requires i <= |s.queue|
    ensures var k := AckedUpTo(s.queue, acks, i);
            DrainedFrom(Reached(s, i), s.queue, i, acks, now) ==
            if k == |s.queue| then Reached(s, k)
            else Reached(s, k).(queue := Added(Reached(s, k).queue, s.queue[k].update, now))
    decreases |s.queue| - i
  {
    if i < |s.queue| && !CallFails(s.queue[i].update, Acked(acks, i)) {
      RetryReaches(s, i);
      DrainFromReached(s, i + 1, acks, now);
    }
  }

  /** A drain folds the entries before the first failure into the store and the hash list. It leaves the
      acknowledged entries without a uid, then the unsent suffix, then Add of the failing entry. */
  lemma DrainEffect(s: State, acks: seq<bool>, now: int)
    ensures var q, s' := s.queue, Drained(s, acks, now);
            var k := AckedUpTo(q, acks, 0);
            var rest := EmptyUids(q[..k]) + q[k..];
            && s'.remote == Replay(s.remote, Updates(q[..k]))
            && s'.hashes == HashesAfter(s.hashes, Updates(q[..k]))
            && s'.queue == (if k == |q| then rest else Added(rest, q[k].update, now))
            && s'.cleanupRunning == s.cleanupRunning
  {
    NothingReached(s);
    DrainFromReached(s, 0, acks, now);
  }

  lemma {:induction false} NoEmptyUids(q: seq<Entry>)
    requires forall e :: e in q ==> e.update.uid != ""
    ensures EmptyUids(q) == []
  {
    if q != [] {
      NoEmptyUids(q[..|q| - 1]);
      assert q[|q| - 1] in q;
    }
  }

  /** With uids everywhere a failed drain keeps the suffix and appends one copy of its head, even when the
      queue holds the same uid several times. */
  lemma DrainEffectWithUids(s: State, acks: seq<bool>, now: int)
    requires forall e :: e in s.queue ==> e.update.uid != ""
    ensures var q := s.queue;
            var k := AckedUpTo(q, acks, 0);
            Drained(s, acks, now).queue == if k == |q| then [] else q[k..] + [Entry(now, 0, q[k].update)]
  {
    hide Drained;
    DrainEffect(s, acks, now);
    var k := AckedUpTo(s.queue, acks, 0);
    hide AckedUpTo;
    NoEmptyUids(s.queue[..k]);
    assert [] + s.queue[k..] == s.queue[k..];
  }
}
