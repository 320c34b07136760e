/** The hash list the agent fetches at start-up. The library that implements it is not part of the repository;
    it is modelled by its contract, a map from uid to (hash, active). */
module HashList {
  datatype HashItem = HashItem(hash: string, active: bool)
  type Hashes = map<string, HashItem>

  predicate UpdateNeeded(hs: Hashes, uid: string, hash: string) {
    uid !in hs || hs[uid].hash != hash
  }

  function MarkedActive(hs: Hashes, uid: string): Hashes {
    if uid in hs then hs[uid := hs[uid].(active := true)] else hs
  }

  /** An entry that is new to the list is active; an existing one keeps its mark. */
  function HashUpdated(hs: Hashes, uid: string, hash: string): Hashes {
    hs[uid := HashItem(hash, uid in hs ==> hs[uid].active)]
  }

  function InactiveUids(hs: Hashes): set<string> {
    set uid | uid in hs && !hs[uid].active
  }

  class List {
    var items: Hashes

    constructor (start: Hashes)
      ensures items == start
    {
      items := start;
    }

    method CheckUpdateNeeded(uid: string, hash: string) returns (needed: bool)
      ensures needed == UpdateNeeded(items, uid, hash)
    {
      needed := uid !in items || items[uid].hash != hash;
    }

    method UpdateHash(uid: string, hash: string)
      modifies this
      ensures items == HashUpdated(old(items), uid, hash)
    {
      items := items[uid := HashItem(hash, if uid in items then items[uid].active else true)];
    }

    method MarkActive(uid: string)
      modifies this
      ensures items == MarkedActive(old(items), uid)
    {
      if uid in items {
        items := items[uid := items[uid].(active := true)];
      }
    }

    /** The inactive uids, each once, in no particular order. */
    method GetInactiveUid() returns (uids: seq<string>)
      ensures forall uid :: uid in uids <==> uid in InactiveUids(items)
      ensures forall i, j :: 0 <= i < j < |uids| ==> uids[i] != uids[j]
    {
      uids := [];
      var rest := InactiveUids(items);
      while rest != {}
        invariant forall uid :: uid in InactiveUids(items) <==> uid in uids || uid in rest
        invariant forall uid :: uid in rest ==> uid !in uids
        invariant forall i, j :: 0 <= i < j < |uids| ==> uids[i] != uids[j]
        decreases rest
      {
        var uid :| uid in rest;
        uids := uids + [uid];
        rest := rest - {uid};
      }
    }
  }
}
