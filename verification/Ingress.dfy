/** Ingress resolution of internal/utils/ingress.go: rules and paths with a memo of services, the endpoints of a
    service, and the health verdict. */
module Ingress {
  import opened Common
  import opened Text

  datatype ServicePort = ServicePort(name: string, nodePort: int, protocol: string)
  datatype Endpoint = Endpoint(node: string, pod: string)
  datatype Service = Service(name: string, kind: string, selector: string, ports: seq<ServicePort>, endpoints: seq<Endpoint>)

  const NO_SERVICE := Service("", "", "", [], [])

  // ---- What the cluster answers ----

  datatype RawEndpoint = RawEndpoint(nodeName: Option<string>, targetName: Option<string>)

  datatype ServiceReply = ServiceFound(kind: string, selector: string, ports: seq<ServicePort>) | ServiceMissing | ServiceError
  datatype ListReply = Listed(groups: seq<seq<RawEndpoint>>) | NotServed | ListError

  /** The answers behind one GetIngressService call: the service, its endpoint slices, the legacy endpoints. */
  datatype Replies = Replies(service: ServiceReply, slices: ListReply, legacy: ListReply)

  function Resolved(e: RawEndpoint): Endpoint {
    Endpoint(if e.nodeName.Some? then e.nodeName.value else "None",
             if e.targetName.Some? then e.targetName.value else "None")
  }

  function Flat(groups: seq<seq<RawEndpoint>>): seq<Endpoint> {
    if groups == [] then [] else Flat(groups[..|groups| - 1]) + ResolvedAll(groups[|groups| - 1])
  }

  function ResolvedAll(es: seq<RawEndpoint>): seq<Endpoint> {
    if es == [] then [] else ResolvedAll(es[..|es| - 1]) + [Resolved(es[|es| - 1])]
  }

  function Key(e: Endpoint): string {
    e.node + "|" + e.pod
  }

  /** Each endpoint whose key did not occur before. */
  function Kept(es: seq<Endpoint>): seq<Endpoint> {
    if es == [] then [] else
    var init, last := es[..|es| - 1], es[|es| - 1];
    Kept(init) + if Key(last) in Keys(init) then [] else [last]
  }

  function Keys(es: seq<Endpoint>): (keys: set<string>)
    ensures forall k :: k in keys <==> exists i :: 0 <= i < |es| && Key(es[i]) == k
  {
    if es == [] then {} else
    var keys, last := Keys(es[..|es| - 1]), es[|es| - 1];
    assert forall i :: 0 <= i < |es| ==> es[i] == if i < |es| - 1 then es[..|es| - 1][i] else last;
    keys + {Key(last)}
  }

  /** Each endpoint that did not occur before. */
  function Distinct(es: seq<Endpoint>): seq<Endpoint> {
    if es == [] then [] else
    var init, last := es[..|es| - 1], es[|es| - 1];
    Distinct(init) + if last in init then [] else [last]
  }

  function ServiceOf(name: string, r: Replies): Option<Service> {
    match r.service
    case ServiceError => None
    case ServiceMissing => Some(Service(name, "", "", [], []))
    case ServiceFound(kind, selector, ports) =>
      var s := Service(name, kind, selector, ports, []);
      match r.slices
      case Listed(groups) => Some(s.(endpoints := Kept(Flat(groups))))
      case ListError => None
      case NotServed =>
        match r.legacy
        case Listed(groups) => Some(s.(endpoints := Flat(groups)))
        case NotServed => Some(s)
        case ListError => None
  }

  /** GetIngressService; None is the error return. */
  method GetIngressService(name: string, r: Replies) returns (service: Option<Service>)
    ensures service == ServiceOf(name, r)
  {
    if r.service.ServiceError? {
      return None;
    }
    if r.service.ServiceMissing? {
      return Some(Service(name, "", "", [], []));
    }
    var s := Service(name, r.service.kind, r.service.selector, r.service.ports, []);
    var endpoints: seq<Endpoint> := [];
    if !r.slices.Listed? {
      if r.slices.ListError? {
        return None;
      }
      if r.legacy.NotServed? {
        return Some(s);
      }
      if r.legacy.ListError? {
        return None;
      }
      var subsets := r.legacy.groups;
      for i := 0 to |subsets|
        invariant endpoints == Flat(subsets[..i])
      {
        assert subsets[..i + 1][..i] == subsets[..i];
        for j := 0 to |subsets[i]|
          invariant endpoints == Flat(subsets[..i]) + ResolvedAll(subsets[i][..j])
        {
          assert subsets[i][..j + 1][..j] == subsets[i][..j];
          endpoints := endpoints + [Resolved(subsets[i][j])];
        }
        assert subsets[i][..|subsets[i]|] == subsets[i];
      }
      assert subsets[..|subsets|] == subsets;
    } else {
      endpoints := CollectSlices(r.slices.groups);
    }
    return Some(s.(endpoints := endpoints));
  }

  /** The endpoint slices, without the endpoints whose key was seen. */
  method CollectSlices(slices: seq<seq<RawEndpoint>>) returns (endpoints: seq<Endpoint>)
    ensures endpoints == Kept(Flat(slices))
  {
    endpoints := [];
    var seen: set<string> := {};
    for i := 0 to |slices|
      invariant endpoints == Kept(Flat(slices[..i])) && seen == Keys(Flat(slices[..i]))
    {
      assert slices[..i + 1][..i] == slices[..i];
      endpoints, seen := CollectSlice(slices[i], endpoints, seen, Flat(slices[..i]));
    }
    assert slices[..|slices|] == slices;
  }

  /** The inner loop: `before` are the endpoints of the earlier slices. */
  method CollectSlice(slice: seq<RawEndpoint>, endpoints: seq<Endpoint>, seen: set<string>, ghost before: seq<Endpoint>)
    returns (endpoints': seq<Endpoint>, seen': set<string>)
    requires endpoints == Kept(before) && seen == Keys(before)
    ensures endpoints' == Kept(before + ResolvedAll(slice)) && seen' == Keys(before + ResolvedAll(slice))
  {
    endpoints', seen' := endpoints, seen;
    ghost var all := before;
    for j := 0 to |slice|
      invariant all == before + ResolvedAll(slice[..j])
      invariant endpoints' == Kept(all) && seen' == Keys(all)
    {
      var e := Resolved(slice[j]);
      OneMoreResolved(before, slice, j);
      OneMoreEndpoint(all, e);
      all := all + [e];
      if Key(e) in seen' {
        continue;
      }
      seen' := seen' + {Key(e)};
      endpoints' := endpoints' + [e];
    }
    assert slice[..|slice|] == slice;
  }

  lemma OneMoreResolved(before: seq<Endpoint>, slice: seq<RawEndpoint>, j: nat)
    requires j < |slice|
    ensures before + ResolvedAll(slice[..j + 1]) == before + ResolvedAll(slice[..j]) + [Resolved(slice[j])]
  {
    assert slice[..j + 1][..j] == slice[..j];
  }

  lemma OneMoreEndpoint(es: seq<Endpoint>, e: Endpoint)
    ensures Kept(es + [e]) == Kept(es) + if Key(e) in Keys(es) then [] else [e]
    ensures Distinct(es + [e]) == Distinct(es) + if e in es then [] else [e]
    ensures Keys(es + [e]) == Keys(es) + {Key(e)}
  {
    assert (es + [e])[..|es|] == es;
  }

  // ---- Endpoints ----

  ghost predicate NoCollision(es: seq<Endpoint>) {
    forall i, j :: 0 <= i < j < |es| && Key(es[i]) == Key(es[j]) ==> es[i] == es[j]
  }

  lemma CollisionSnoc(init: seq<Endpoint>, last: Endpoint)
    ensures NoCollision(init + [last]) <==> NoCollision(init) && (Key(last) in Keys(init) ==> last in init)
  {
    var es := init + [last];
    if NoCollision(es) {
      assert forall i :: 0 <= i < |init| ==> es[i] == init[i];
      if Key(last) in Keys(init) {
        var i :| 0 <= i < |init| && Key(init[i]) == Key(last);
        assert es[i] == es[|init|];
      }
    }
  }

  lemma {:induction false} KeptAgainstDistinct(es: seq<Endpoint>)
    ensures |Kept(es)| <= |Distinct(es)|
    ensures NoCollision(es) ==> Kept(es) == Distinct(es)
    ensures !NoCollision(es) ==> |Kept(es)| < |Distinct(es)|
  {
    if es != [] {
      var init, last := es[..|es| - 1], es[|es| - 1];
      KeptAgainstDistinct(init);
      CollisionSnoc(init, last);
      assert init + [last] == es;
      assert last in init ==> Key(last) in Keys(init);
    }
  }

  /** Collecting the slices keeps each (node, pod) pair once, in order of first appearance, exactly when no two
      different pairs have the same key. */
  lemma EndpointsAreDistinct(slices: seq<seq<RawEndpoint>>)
    ensures Kept(Flat(slices)) == Distinct(Flat(slices)) <==> NoCollision(Flat(slices))
  {
    KeptAgainstDistinct(Flat(slices));
  }

  /** Two different pairs can share a key: the separator may occur in a name. */
  lemma KeysCanCollide()
    ensures !NoCollision([Endpoint("a|b", "c"), Endpoint("a", "b|c")])
  {
    var es := [Endpoint("a|b", "c"), Endpoint("a", "b|c")];
    assert Key(es[0]) == "a|b|c" == Key(es[1]);
    assert |es[0].node| != |es[1].node|;
  }

  /** Kubernetes node names hold no separator, and then the key tells endpoints apart. */
  lemma KeyDecides(a: Endpoint, b: Endpoint)
    requires '|' !in a.node && '|' !in b.node && Key(a) == Key(b)
    ensures a == b
  {
    var k := Key(a);
    assert k[|a.node|] == '|' && k[|b.node|] == '|';
    assert forall i :: 0 <= i < |a.node| ==> k[i] == a.node[i];
    assert forall i :: 0 <= i < |b.node| ==> k[i] == b.node[i];
    assert |a.node| == |b.node|;
    assert a.node == k[..|a.node|] == b.node;
    assert a.pod == k[|a.node| + 1..] == b.pod;
  }

  // ---- What a fetched service holds ----

  /** The raw endpoints that answer: the slices', or the legacy ones where slices are not served. */
  function Answering(r: Replies): seq<seq<RawEndpoint>> {
    if r.slices.Listed? then r.slices.groups
    else if r.slices.NotServed? && r.legacy.Listed? then r.legacy.groups
    else []
  }

  /** One of the calls that are reached fails with an error. */
  predicate Errs(r: Replies) {
    || r.service.ServiceError?
    || (r.service.ServiceFound? && (r.slices.ListError? || (r.slices.NotServed? && r.legacy.ListError?)))
  }

  /** Node and pod of this raw endpoint, or "None" where it names none. */
  predicate IsOf(e: Endpoint, raw: RawEndpoint) {
    && (match raw.nodeName case Some(node) => e.node == node case None => e.node == "None")
    && (match raw.targetName case Some(pod) => e.pod == pod case None => e.pod == "None")
  }

  function Offset(groups: seq<seq<RawEndpoint>>): nat {
    if groups == [] then 0 else Offset(groups[..|groups| - 1]) + |groups[|groups| - 1]|
  }

  lemma {:induction false} ResolvedInOrder(es: seq<RawEndpoint>)
    ensures |ResolvedAll(es)| == |es| && forall j :: 0 <= j < |es| ==> IsOf(ResolvedAll(es)[j], es[j])
  {
    if es != [] {
      ResolvedInOrder(es[..|es| - 1]);
    }
  }

  /** Flattening keeps every raw endpoint, in order: group by group, and within a group one by one. */
  lemma {:induction false} FlatInOrder(groups: seq<seq<RawEndpoint>>, i: nat, j: nat)
    requires i < |groups| && j < |groups[i]|
    ensures Offset(groups[..i]) + j < |Flat(groups)| == Offset(groups)
    ensures IsOf(Flat(groups)[Offset(groups[..i]) + j], groups[i][j])
  {
    var n := |groups| - 1;
    var init, last := Flat(groups[..n]), ResolvedAll(groups[n]);
    assert Flat(groups) == init + last;
    ResolvedInOrder(groups[n]);
    FlatLength(groups[..n]);
    FlatLength(groups);
    hide Flat, ResolvedAll, IsOf;
    if i < n {
      FlatInOrder(groups[..n], i, j);
      assert groups[..n][..i] == groups[..i];
      var at := Offset(groups[..i]) + j;
      assert (init + last)[at] == init[at];
    } else {
      assert (init + last)[|init| + j] == last[j];
    }
  }

  lemma {:induction false} FlatLength(groups: seq<seq<RawEndpoint>>)
    ensures |Flat(groups)| == Offset(groups)
  {
    if groups != [] {
      FlatLength(groups[..|groups| - 1]);
      ResolvedInOrder(groups[|groups| - 1]);
    }
  }

  /** The flattened endpoints come from raw ones. */
  lemma {:induction false} FlatComesFrom(groups: seq<seq<RawEndpoint>>, e: Endpoint)
    requires e in Flat(groups)
    ensures exists i, j :: 0 <= i < |groups| && 0 <= j < |groups[i]| && IsOf(e, groups[i][j])
  {
    var n := |groups| - 1;
    if e in Flat(groups[..n]) {
      FlatComesFrom(groups[..n], e);
      var i, j :| 0 <= i < n && 0 <= j < |groups[..n][i]| && IsOf(e, groups[..n][i][j]);
      assert IsOf(e, groups[i][j]);
    } else {
      ResolvedInOrder(groups[n]);
      var j :| 0 <= j < |groups[n]| && ResolvedAll(groups[n])[j] == e;
      assert IsOf(e, groups[n][j]);
    }
  }

  /** No earlier endpoint has the key of the i-th. */
  ghost predicate FirstOfItsKey(es: seq<Endpoint>, i: nat)
    requires i < |es|
  {
    forall j :: 0 <= j < i ==> Key(es[j]) != Key(es[i])
  }

  lemma FirstSnoc(init: seq<Endpoint>, last: Endpoint, i: nat)
    requires i <= |init|
    ensures FirstOfItsKey(init + [last], i) <==> if i < |init| then FirstOfItsKey(init, i) else Key(last) !in Keys(init)
  {
    var es := init + [last];
    assert forall j :: 0 <= j < |init| ==> es[j] == init[j];
  }

  /** Each endpoint with the mark whether it is the first of its key. */
  ghost function Firsts(es: seq<Endpoint>): (marked: seq<(Endpoint, bool)>)
    ensures |marked| == |es|
    ensures forall i :: 0 <= i < |es| ==> marked[i] == (es[i], FirstOfItsKey(es, i))
  {
    seq(|es|, i requires 0 <= i < |es| => (es[i], FirstOfItsKey(es, i)))
  }

  lemma FirstsSnoc(init: seq<Endpoint>, last: Endpoint, isNew: bool)
    requires isNew <==> Key(last) !in Keys(init)
    ensures Firsts(init + [last]) == Firsts(init) + [(last, isNew)]
  {
    hide FirstOfItsKey, Keys, Key;
    var es, marked := init + [last], Firsts(init) + [(last, isNew)];
    forall i | 0 <= i < |es|
      ensures Firsts(es)[i] == marked[i]
    {
      FirstSnoc(init, last, i);
    }
  }

  predicate IsFirst(e: (Endpoint, bool)) {
    e.1
  }

  function Unmarked(e: (Endpoint, bool)): Endpoint {
    e.0
  }

  lemma OneMoreFirst(init: seq<Endpoint>, last: Endpoint, at: seq<nat>) returns (at': seq<nat>)
    requires Selects(Firsts(init), Kept(init), at, IsFirst, Unmarked)
    ensures Selects(Firsts(init + [last]), Kept(init + [last]), at', IsFirst, Unmarked)
  {
    hide Selects, Firsts, Kept, Keys, Key, Distinct, FirstOfItsKey;
    var marked, kept, isNew := Firsts(init), Kept(init), Key(last) !in Keys(init);
    OneMoreEndpoint(init, last);
    FirstsSnoc(init, last, isNew);
    SelectsOneMore(marked, kept, at, IsFirst, Unmarked, (last, isNew));
    if isNew {
      at' := at + [|marked|];
    } else {
      assert kept + [] == kept;
      at' := at;
    }
  }

  /** Of the endpoints of slices the first with each key is kept, in order. */
  lemma {:induction false} FirstsAreKept(es: seq<Endpoint>) returns (at: seq<nat>)
    ensures Selects(Firsts(es), Kept(es), at, IsFirst, Unmarked)
  {
    if es == [] {
      at := [];
    } else {
      hide Selects, Firsts, Kept;
      var init, last := es[..|es| - 1], es[|es| - 1];
      assert init + [last] == es;
      at := FirstsAreKept(init);
      at := OneMoreFirst(init, last, at);
    }
  }

  lemma KeptFrom(es: seq<Endpoint>, e: Endpoint)
    requires e in Kept(es)
    ensures e in es
  {
    var at := FirstsAreKept(es);
    var i :| 0 <= i < |Kept(es)| && Kept(es)[i] == e;
    assert Firsts(es)[at[i]].0 == e;
  }

  lemma SomeAreKept(es: seq<Endpoint>)
    requires es != []
    ensures Kept(es) != []
  {
    var at := FirstsAreKept(es);
    assert FirstOfItsKey(es, 0) && IsFirst(Firsts(es)[0]);
  }

  /** A lookup fails exactly if a call it reaches errs. A missing service is known by name alone; a found one has
      name, kind, selector and ports of its own reply and node and pod of raw endpoints that answer, and it has
      endpoints exactly if one answers. */
  lemma FetchedServiceHolds(name: string, r: Replies)
    ensures ServiceOf(name, r).None? <==> Errs(r)
    ensures r.service.ServiceMissing? ==> ServiceOf(name, r) == Some(Service(name, "", "", [], []))
    ensures !Errs(r) && r.service.ServiceFound? ==>
              var s := ServiceOf(name, r).value;
              && s.name == name && s.kind == r.service.kind && s.selector == r.service.selector
              && s.ports == r.service.ports
              && (s.endpoints != [] <==> exists i :: 0 <= i < |Answering(r)| && Answering(r)[i] != [])
              && forall e :: e in s.endpoints ==>
                   exists i, j :: 0 <= i < |Answering(r)| && 0 <= j < |Answering(r)[i]| && IsOf(e, Answering(r)[i][j])
  {
    if !Errs(r) && r.service.ServiceFound? {
      var groups := Answering(r);
      var flat, endpoints := Flat(groups), ServiceOf(name, r).value.endpoints;
      assert endpoints == if r.slices.Listed? then Kept(flat) else flat;
      forall e | e in endpoints
        ensures exists i, j :: 0 <= i < |groups| && 0 <= j < |groups[i]| && IsOf(e, groups[i][j])
      {
        if r.slices.Listed? { KeptFrom(flat, e); }
        FlatComesFrom(groups, e);
      }
      if endpoints != [] {
        assert endpoints[0] in endpoints;
        var i, j :| 0 <= i < |groups| && 0 <= j < |groups[i]| && IsOf(endpoints[0], groups[i][j]);
        assert groups[i] != [];
      } else {
        if flat != [] { SomeAreKept(flat); }
        forall i | 0 <= i < |groups|
          ensures groups[i] == []
        {
          if groups[i] != [] { FlatInOrder(groups, i, 0); }
        }
      }
    }
  }

  // ---- Rules and paths ----

  /** `backend` is None where the path has no service backend and the Go code dereferences a nil pointer. */
  datatype PathSpec = PathSpec(path: string, backend: Option<string>)
  datatype RuleSpec = RuleSpec(host: string, http: Option<seq<PathSpec>>)
  datatype LoadBalancer = LoadBalancer(hostname: string, ip: string)
  datatype IngressSpec = IngressSpec(
    uid: string, name: string, namespace: string, className: Option<string>,
    rules: Option<seq<RuleSpec>>, balancers: seq<LoadBalancer>)

  datatype Path = Path(path: string, service: Service)
  datatype Rule = Rule(hostname: string, addresses: seq<string>, paths: seq<Path>)
  datatype Report = Report(uid: string, health: int, name: string, namespace: string, class_: string, rules: seq<Rule>)

  datatype Outcome = Reported(report: Report) | NoClient | MissingRules | NilPointerPanic

  datatype Fetch = Fetch(name: string, ok: bool)

  /** The service cache and the log of GetIngressService calls. */
  datatype Memo = Memo(cache: map<string, Service>, fetches: seq<Fetch>)

  /** What the n-th GetIngressService call is answered. */
  type Oracle = (nat, string) -> Replies

  function Looked(memo: Memo, name: string, oracle: Oracle): (Service, Memo) {
    if name in memo.cache then (memo.cache[name], memo) else
    match ServiceOf(name, oracle(|memo.fetches|, name))
    case None => (NO_SERVICE, memo.(fetches := memo.fetches + [Fetch(name, false)]))
    case Some(s) => (s, Memo(memo.cache[name := s], memo.fetches + [Fetch(name, true)]))
  }

  datatype Walk = Walk(paths: seq<Path>, memo: Memo)

  function WalkPaths(specs: seq<PathSpec>, memo: Memo, oracle: Oracle): Option<Walk> {
    if specs == [] then Some(Walk([], memo)) else
    var before, last := WalkPaths(specs[..|specs| - 1], memo, oracle), specs[|specs| - 1];
    if before.None? || last.backend.None? then None else
    var (service, memo') := Looked(before.value.memo, last.backend.value, oracle);
    Some(Walk(before.value.paths + [Path(last.path, service)], memo'))
  }

  function AddressesFor(balancers: seq<LoadBalancer>, host: string): seq<string> {
    if balancers == [] then [] else
    AddressesFor(balancers[..|balancers| - 1], host)
    + if balancers[|balancers| - 1].hostname == host then [balancers[|balancers| - 1].ip] else []
  }

  function PathSpecs(rule: RuleSpec): seq<PathSpec> {
    if rule.http.None? then [] else rule.http.value
  }

  datatype Tour = Tour(rules: seq<Rule>, memo: Memo)

  const FRESH := Memo(map[], [])

  function WalkRules(specs: seq<RuleSpec>, balancers: seq<LoadBalancer>, oracle: Oracle): Option<Tour> {
    if specs == [] then Some(Tour([], FRESH)) else
    var before, last := WalkRules(specs[..|specs| - 1], balancers, oracle), specs[|specs| - 1];
    if before.None? then None else
    var walk := WalkPaths(PathSpecs(last), before.value.memo, oracle);
    if walk.None? then None else
    Some(Tour(before.value.rules + [Rule(last.host, AddressesFor(balancers, last.host), walk.value.paths)], walk.value.memo))
  }

  /** A path without a service backend stops the whole walk. */
  lemma {:induction false} PathPanics(specs: seq<PathSpec>, i: nat, memo: Memo, oracle: Oracle)
    requires i <= |specs| && WalkPaths(specs[..i], memo, oracle).None?
    ensures WalkPaths(specs, memo, oracle).None?
    decreases |specs| - i
  {
    if i == |specs| {
      assert specs[..i] == specs;
    } else {
      assert specs[..i + 1][..i] == specs[..i];
      PathPanics(specs, i + 1, memo, oracle);
    }
  }

  lemma {:induction false} RulePanics(specs: seq<RuleSpec>, i: nat, balancers: seq<LoadBalancer>, oracle: Oracle)
    requires i <= |specs| && WalkRules(specs[..i], balancers, oracle).None?
    ensures WalkRules(specs, balancers, oracle).None?
    decreases |specs| - i
  {
    if i == |specs| {
      assert specs[..i] == specs;
    } else {
      assert specs[..i + 1][..i] == specs[..i];
      RulePanics(specs, i + 1, balancers, oracle);
    }
  }

  lemma NoPaths(memo: Memo, oracle: Oracle)
    ensures WalkPaths([], memo, oracle) == Some(Walk([], memo))
  {
  }

  method ResolvePaths(specs: seq<PathSpec>, memo: Memo, oracle: Oracle)
    returns (ok: bool, paths: seq<Path>, memo': Memo)
    ensures ok <==> WalkPaths(specs, memo, oracle).Some?
    ensures ok ==> WalkPaths(specs, memo, oracle) == Some(Walk(paths, memo'))
  {
    paths, memo' := [], memo;
    for i := 0 to |specs|
      invariant WalkPaths(specs[..i], memo, oracle) == Some(Walk(paths, memo'))
    {
      assert specs[..i + 1][..i] == specs[..i];
      if specs[i].backend.None? {
        PathPanics(specs, i + 1, memo, oracle);
        return false, paths, memo';
      }
      var name := specs[i].backend.value;
      var service := NO_SERVICE;
      if name in memo'.cache {
        service := memo'.cache[name];
      } else {
        var fetched := GetIngressService(name, oracle(|memo'.fetches|, name));
        memo' := memo'.(fetches := memo'.fetches + [Fetch(name, fetched.Some?)]);
        if fetched.Some? {
          service := fetched.value;
          memo' := memo'.(cache := memo'.cache[name := service]);
        }
      }
      paths := paths + [Path(specs[i].path, service)];
    }
    assert specs[..|specs|] == specs;
    ok := true;
  }

  /** The report before the verdict. */
  function Unjudged(ingress: IngressSpec, rules: seq<Rule>): Report {
    var class_ := if ingress.className.Some? then ingress.className.value else "";
    Report(ingress.uid, 1, ingress.name, ingress.namespace, class_, rules)
  }

  ghost function Judged(report: Report): Report {
    report.(health := if Healthy(report) then report.health else 3)
  }

  /** GetIngressDetails as a whole. */
  ghost function Detailed(hasClient: bool, ingress: IngressSpec, oracle: Oracle): Outcome {
    if !hasClient then NoClient
    else if ingress.rules.None? then MissingRules
    else
      match WalkRules(ingress.rules.value, ingress.balancers, oracle)
      case None => NilPointerPanic
      case Some(tour) => Reported(Judged(Unjudged(ingress, tour.rules)))
  }

  method GetIngressDetails(hasClient: bool, ingress: IngressSpec, oracle: Oracle) returns (r: Outcome, ghost memo: Memo)
    ensures r == Detailed(hasClient, ingress, oracle)
    ensures r.Reported? ==> memo == WalkRules(ingress.rules.value, ingress.balancers, oracle).value.memo
  {
    hide WalkPaths, Healthy;
    memo := FRESH;
    if !hasClient {
      return NoClient, memo;
    }
    if ingress.rules.None? {
      return MissingRules, memo;
    }
    var specs := ingress.rules.value;
    var rules: seq<Rule> := [];
    var m := FRESH;
    for i := 0 to |specs|
      invariant WalkRules(specs[..i], ingress.balancers, oracle) == Some(Tour(rules, m))
    {
      assert specs[..i + 1][..i] == specs[..i];
      var rule := Rule(specs[i].host, [], []);
      for j := 0 to |ingress.balancers|
        invariant rule == Rule(specs[i].host, AddressesFor(ingress.balancers[..j], specs[i].host), [])
      {
        assert ingress.balancers[..j + 1][..j] == ingress.balancers[..j];
        if ingress.balancers[j].hostname == specs[i].host {
          rule := rule.(addresses := rule.addresses + [ingress.balancers[j].ip]);
        }
      }
      assert ingress.balancers[..|ingress.balancers|] == ingress.balancers;
      if specs[i].http.Some? {
        var ok, paths, m' := ResolvePaths(specs[i].http.value, m, oracle);
        if !ok {
          RulePanics(specs, i + 1, ingress.balancers, oracle);
          return NilPointerPanic, m;
        }
        rule, m := rule.(paths := paths), m';
      } else {
        NoPaths(m, oracle);
      }
      rules := rules + [rule];
    }
    assert specs[..|specs|] == specs;
    var report := GetIngressHealth(Unjudged(ingress, rules));
    return Reported(report), m;
  }

  // ---- The memo ----

  /** Once a service was fetched it is never fetched again. */
  ghost predicate FetchedOnce(fetches: seq<Fetch>) {
    forall i, j :: 0 <= i < j < |fetches| && fetches[i].ok ==> fetches[i].name != fetches[j].name
  }

  /** The cache holds exactly the services fetched successfully. */
  ghost predicate MemoInv(memo: Memo) {
    && FetchedOnce(memo.fetches)
    && forall name :: name in memo.cache <==> exists i :: 0 <= i < |memo.fetches| && memo.fetches[i] == Fetch(name, true)
  }

  lemma LookedKeepsMemo(memo: Memo, name: string, oracle: Oracle)
    requires MemoInv(memo)
    ensures MemoInv(Looked(memo, name, oracle).1)
  {
    var memo' := Looked(memo, name, oracle).1;
    if name !in memo.cache {
      var fs, fs' := memo.fetches, memo'.fetches;
      assert forall i :: 0 <= i < |fs| ==> fs'[i] == fs[i];
      forall n
        ensures n in memo'.cache <==> exists i :: 0 <= i < |fs'| && fs'[i] == Fetch(n, true)
      {
        if n in memo.cache {
          var i :| 0 <= i < |fs| && fs[i] == Fetch(n, true);
          assert fs'[i] == Fetch(n, true);
        } else if n == name {
          assert fs'[|fs|].name == name;
        }
      }
      forall i, j | 0 <= i < j < |fs'| && fs'[i].ok
        ensures fs'[i].name != fs'[j].name
      {
        assert fs[i] == Fetch(fs[i].name, true);
      }
    }
  }

  lemma {:induction false} PathsKeepMemo(specs: seq<PathSpec>, memo: Memo, oracle: Oracle)
    requires MemoInv(memo) && WalkPaths(specs, memo, oracle).Some?
    ensures MemoInv(WalkPaths(specs, memo, oracle).value.memo)
  {
    if specs != [] {
      var n := |specs| - 1;
      PathsKeepMemo(specs[..n], memo, oracle);
      LookedKeepsMemo(WalkPaths(specs[..n], memo, oracle).value.memo, specs[n].backend.value, oracle);
    }
  }

  /** Over a whole ingress each service is fetched successfully at most once, and not again afterwards. */
  lemma {:induction false} ServicesFetchedOnce(specs: seq<RuleSpec>, balancers: seq<LoadBalancer>, oracle: Oracle)
    requires WalkRules(specs, balancers, oracle).Some?
    ensures MemoInv(WalkRules(specs, balancers, oracle).value.memo)
  {
    if specs != [] {
      var n := |specs| - 1;
      ServicesFetchedOnce(specs[..n], balancers, oracle);
      PathsKeepMemo(PathSpecs(specs[n]), WalkRules(specs[..n], balancers, oracle).value.memo, oracle);
    }
  }

  // ---- Against an uncached walk ----

  /** The cluster answers a service the same way every time. */
  ghost predicate Steady(oracle: Oracle, answer: string -> Replies) {
    forall n: nat, name :: oracle(n, name) == answer(name)
  }

  /** The lookup without a cache: an error gives the empty service. */
  function Direct(name: string, answer: string -> Replies): Service {
    var s := ServiceOf(name, answer(name));
    if s.Some? then s.value else NO_SERVICE
  }

  ghost predicate CacheIsDirect(memo: Memo, answer: string -> Replies) {
    forall name :: name in memo.cache ==> memo.cache[name] == Direct(name, answer)
  }

  ghost predicate PathsAlign(specs: seq<PathSpec>, paths: seq<Path>, answer: string -> Replies) {
    && |paths| == |specs|
    && forall i :: 0 <= i < |specs| ==>
         specs[i].backend.Some? && paths[i] == Path(specs[i].path, Direct(specs[i].backend.value, answer))
  }

  lemma LookedIsDirect(memo: Memo, name: string, oracle: Oracle, answer: string -> Replies)
    requires Steady(oracle, answer) && CacheIsDirect(memo, answer)
    ensures var (service, memo') := Looked(memo, name, oracle);
            service == Direct(name, answer) && CacheIsDirect(memo', answer)
  {
    hide ServiceOf;
    assert oracle(|memo.fetches|, name) == answer(name);
  }

  lemma {:induction false} PathsAreDirect(specs: seq<PathSpec>, memo: Memo, oracle: Oracle, answer: string -> Replies)
    requires Steady(oracle, answer) && CacheIsDirect(memo, answer)
    ensures WalkPaths(specs, memo, oracle).Some? <==> forall i :: 0 <= i < |specs| ==> specs[i].backend.Some?
    ensures var w := WalkPaths(specs, memo, oracle);
            w.Some? ==> PathsAlign(specs, w.value.paths, answer) && CacheIsDirect(w.value.memo, answer)
  {
    if specs != [] {
      var init, last := specs[..|specs| - 1], specs[|specs| - 1];
      hide Looked, Direct, CacheIsDirect, Steady;
      PathsAreDirect(init, memo, oracle, answer);
      var before := WalkPaths(init, memo, oracle);
      assert forall i :: 0 <= i < |init| ==> init[i] == specs[i];
      if before.Some? && last.backend.Some? {
        LookedIsDirect(before.value.memo, last.backend.value, oracle, answer);
        var service := Direct(last.backend.value, answer);
        assert PathsAlign(specs, before.value.paths + [Path(last.path, service)], answer);
      }
      hide PathsAlign;
    }
  }

  ghost predicate RuleAligns(spec: RuleSpec, rule: Rule, balancers: seq<LoadBalancer>, answer: string -> Replies) {
    && rule.hostname == spec.host
    && rule.addresses == AddressesFor(balancers, spec.host)
    && PathsAlign(PathSpecs(spec), rule.paths, answer)
  }

  ghost predicate Backed(spec: RuleSpec) {
    forall j :: 0 <= j < |PathSpecs(spec)| ==> PathSpecs(spec)[j].backend.Some?
  }

  ghost predicate AllAlign(specs: seq<RuleSpec>, rules: seq<Rule>, balancers: seq<LoadBalancer>, answer: string -> Replies) {
    |rules| == |specs| && forall i :: 0 <= i < |specs| ==> RuleAligns(specs[i], rules[i], balancers, answer)
  }

  ghost predicate AllBacked(specs: seq<RuleSpec>) {
    forall i :: 0 <= i < |specs| ==> Backed(specs[i])
  }

  ghost predicate Aligned(tour: Tour, specs: seq<RuleSpec>, balancers: seq<LoadBalancer>, answer: string -> Replies) {
    CacheIsDirect(tour.memo, answer) && AllAlign(specs, tour.rules, balancers, answer)
  }

  lemma OneMoreRule(specs: seq<RuleSpec>, balancers: seq<LoadBalancer>, oracle: Oracle, answer: string -> Replies)
    requires Steady(oracle, answer) && specs != []
    requires var before := WalkRules(specs[..|specs| - 1], balancers, oracle);
             before.Some? && Aligned(before.value, specs[..|specs| - 1], balancers, answer)
    ensures var tour := WalkRules(specs, balancers, oracle);
            && (tour.Some? <==> Backed(specs[|specs| - 1]))
            && (tour.Some? ==> Aligned(tour.value, specs, balancers, answer))
  {
    var before, last := WalkRules(specs[..|specs| - 1], balancers, oracle).value, specs[|specs| - 1];
    PathsAreDirect(PathSpecs(last), before.memo, oracle, answer);
    var walk := WalkPaths(PathSpecs(last), before.memo, oracle);
    if walk.Some? {
      var rule := Rule(last.host, AddressesFor(balancers, last.host), walk.value.paths);
      assert RuleAligns(last, rule, balancers, answer);
      AlignsSnoc(specs, before.rules, rule, balancers, answer);
    }
  }

  lemma BackedSnoc(specs: seq<RuleSpec>)
    requires specs != []
    ensures AllBacked(specs) <==> AllBacked(specs[..|specs| - 1]) && Backed(specs[|specs| - 1])
  {
    assert forall i :: 0 <= i < |specs| - 1 ==> specs[..|specs| - 1][i] == specs[i];
  }

  /** With steady answers the resolved rules line up with the specification index by index, and every path has the
      service an uncached lookup gives; the walk panics exactly when some path has no service backend. */
  lemma {:induction false} RulesAlign(specs: seq<RuleSpec>, balancers: seq<LoadBalancer>, oracle: Oracle,
      answer: string -> Replies)
    requires Steady(oracle, answer)
    ensures var tour := WalkRules(specs, balancers, oracle);
            && (tour.Some? <==> AllBacked(specs))
            && (tour.Some? ==> Aligned(tour.value, specs, balancers, answer))
  {
    if specs != [] {
      RulesAlign(specs[..|specs| - 1], balancers, oracle, answer);
      BackedSnoc(specs);
      if WalkRules(specs[..|specs| - 1], balancers, oracle).Some? {
        OneMoreRule(specs, balancers, oracle, answer);
      }
    }
  }

  lemma AlignsSnoc(specs: seq<RuleSpec>, rules: seq<Rule>, rule: Rule, balancers: seq<LoadBalancer>,
      answer: string -> Replies)
    requires specs != [] && AllAlign(specs[..|specs| - 1], rules, balancers, answer)
    requires RuleAligns(specs[|specs| - 1], rule, balancers, answer)
    ensures AllAlign(specs, rules + [rule], balancers, answer)
  {
    forall i | 0 <= i < |specs|
      ensures RuleAligns(specs[i], (rules + [rule])[i], balancers, answer)
    {
      if i < |specs| - 1 {
        assert specs[..|specs| - 1][i] == specs[i];
      }
    }
  }

  // ---- Health ----

  const CLASSES := ["internett", "helsenett", "datacenter"]

  predicate IsAllowed(suffix: string) {
    suffix in CLASSES
  }

  /** The class is an allowed one, or ends in a dash and an allowed one. */
  ghost predicate AllowedClass(class_: string) {
    exists c :: IsAllowed(c) && EndsIn(class_, c)
  }

  ghost predicate EndsIn(s: string, c: string) {
    s == c || (|s| > |c| && s[|s| - |c| - 1..] == "-" + c)
  }

  ghost predicate HealthyRule(rule: Rule) {
    && rule.addresses != [] && rule.paths != []
    && forall i :: 0 <= i < |rule.paths| ==>
         rule.paths[i].service.kind == "NodePort" && rule.paths[i].service.endpoints != []
  }

  ghost predicate Healthy(r: Report) {
    && AllowedClass(r.class_) && r.rules != []
    && forall i :: 0 <= i < |r.rules| ==> HealthyRule(r.rules[i])
  }

  lemma EndsInGrows(x: char, t: string, p: string)
    requires EndsIn(t, p)
    ensures |t| > |p| || x == '-' ==> EndsIn([x] + t, p)
  {
    var s := [x] + t;
    if |t| > |p| {
      assert s[|s| - |p| - 1..] == t[|t| - |p| - 1..];
    } else if x == '-' {
      assert s[|s| - |p| - 1..] == "-" + p;
    }
  }

  lemma {:induction false} EndsInLastPart(s: string)
    ensures var parts := Split(s, '-'); EndsIn(s, parts[|parts| - 1])
    ensures |Split(s, '-')| == 1 ==> Split(s, '-') == [s]
    ensures var parts := Split(s, '-'); |parts| > 1 ==> |s| > |parts[|parts| - 1]|
  {
    hide EndsIn;
    EndsInItself(s);
    if s != "" {
      var t := s[1..];
      EndsInLastPart(t);
      var rest := Split(t, '-');
      assert [s[0]] + t == s;
      EndsInGrows(s[0], t, rest[|rest| - 1]);
    }
  }

  lemma EndsInItself(s: string)
    ensures EndsIn(s, s)
  {
  }

  lemma LongerEndHasDash(s: string, p: string, c: string)
    requires EndsIn(s, p) && EndsIn(s, c) && |p| < |c|
    ensures '-' in c
  {
    var k := |s| - |p| - 1;
    assert s[k..][0] == '-';
    if s != c {
      assert s[|s| - |c| - 1..][1..] == c;
      assert c[k - (|s| - |c|)] == s[k];
    }
  }

  lemma LastPart(s: string, c: string)
    requires '-' !in c
    ensures var parts := Split(s, '-'); parts[|parts| - 1] == c <==> EndsIn(s, c)
  {
    var parts := Split(s, '-');
    var p := parts[|parts| - 1];
    EndsInLastPart(s);
    SplitJoins(s, '-');
    assert p in parts;
    if EndsIn(s, c) {
      if |p| < |c| {
        LongerEndHasDash(s, p, c);
      } else if |c| < |p| {
        LongerEndHasDash(s, c, p);
      } else {
        assert s == p || s[|s| - |p| - 1..][1..] == p;
        assert s == c || s[|s| - |c| - 1..][1..] == c;
      }
    }
  }

  method GetIngressHealth(r: Report) returns (r': Report)
    ensures r' == Judged(r)
  {
    hide HealthyRule, AllowedClass, IsAllowed, Split;
    var health := r.health;
    var parts := Split(r.class_, '-');
    var suffix := parts[|parts| - 1];
    AllowedIsLastPart(r.class_);
    if !IsAllowed(suffix) {
      health := 3;
    }
    if |r.rules| < 1 {
      health := 3;
    } else {
      for i := 0 to |r.rules|
        invariant health == if AllowedClass(r.class_) && GoodRules(r.rules, i) then r.health else 3
      {
        health := RuleHealth(r.rules[i], health);
      }
    }
    r' := r.(health := health);
  }

  ghost predicate GoodRules(rules: seq<Rule>, n: nat)
    requires n <= |rules|
  {
    forall i :: 0 <= i < n ==> HealthyRule(rules[i])
  }

  ghost predicate GoodPaths(paths: seq<Path>, n: nat)
    requires n <= |paths|
  {
    forall i :: 0 <= i < n ==> paths[i].service.kind == "NodePort" && paths[i].service.endpoints != []
  }

  /** The verdict loop's body for one rule. */
  method RuleHealth(rule: Rule, health: int) returns (health': int)
    ensures health' == if HealthyRule(rule) then health else 3
  {
    health' := health;
    if |rule.addresses| < 1 {
      health' := 3;
    }
    if |rule.paths| < 1 {
      health' := 3;
    } else {
      for j := 0 to |rule.paths|
        invariant health' == if rule.addresses != [] && GoodPaths(rule.paths, j) then health else 3
      {
        if rule.paths[j].service.kind != "NodePort" {
          health' := 3;
        }
        if |rule.paths[j].service.endpoints| == 0 {
          health' := 3;
        }
      }
    }
  }

  lemma AllowedIsLastPart(class_: string)
    ensures var parts := Split(class_, '-'); IsAllowed(parts[|parts| - 1]) <==> AllowedClass(class_)
  {
    hide EndsIn, Split, IsAllowed;
    forall c | IsAllowed(c)
      ensures var parts := Split(class_, '-'); parts[|parts| - 1] == c <==> EndsIn(class_, c)
    {
      AllowedHasNoDash(c);
      LastPart(class_, c);
    }
  }

  lemma AllowedHasNoDash(c: string)
    requires IsAllowed(c)
    ensures '-' !in c
  {
    assert c == "internett" || c == "helsenett" || c == "datacenter";
  }

  // ---- The verdict, from the specification ----

  /** The rule's host has a balancer, and every path, of which there is one, leads to a NodePort with endpoints. */
  ghost predicate ServedRule(spec: RuleSpec, balancers: seq<LoadBalancer>, answer: string -> Replies) {
    && (exists j :: 0 <= j < |balancers| && balancers[j].hostname == spec.host)
    && PathSpecs(spec) != []
    && forall i :: 0 <= i < |PathSpecs(spec)| ==> ServedPath(PathSpecs(spec)[i], answer)
  }

  /** The cluster answers with a NodePort, no call errs, and an endpoint answers. */
  ghost predicate Serves(r: Replies) {
    && !Errs(r) && r.service.ServiceFound? && r.service.kind == "NodePort"
    && exists i :: 0 <= i < |Answering(r)| && Answering(r)[i] != []
  }

  ghost predicate ServedPath(spec: PathSpec, answer: string -> Replies) {
    spec.backend.Some? && Serves(answer(spec.backend.value))
  }

  lemma DirectServes(name: string, answer: string -> Replies)
    ensures Serves(answer(name)) <==>
            Direct(name, answer).kind == "NodePort" && Direct(name, answer).endpoints != []
  {
    FetchedServiceHolds(name, answer(name));
    hide ServiceOf;
  }

  ghost predicate Served(ingress: IngressSpec, answer: string -> Replies) {
    && AllowedClass(if ingress.className.Some? then ingress.className.value else "")
    && ingress.rules.Some? && ingress.rules.value != []
    && forall i :: 0 <= i < |ingress.rules.value| ==> ServedRule(ingress.rules.value[i], ingress.balancers, answer)
  }

  lemma {:induction false} AddressesOfHost(balancers: seq<LoadBalancer>, host: string)
    ensures AddressesFor(balancers, host) != [] <==> exists j :: 0 <= j < |balancers| && balancers[j].hostname == host
  {
    if balancers != [] {
      var init := balancers[..|balancers| - 1];
      AddressesOfHost(init, host);
      assert forall j :: 0 <= j < |init| ==> init[j] == balancers[j];
    }
  }

  /** The addresses of a host are the ips of the balancers with its name, in order. */
  lemma {:induction false} AddressesAreSelected(balancers: seq<LoadBalancer>, host: string) returns (at: seq<nat>)
    ensures Selects(balancers, AddressesFor(balancers, host), at, (b: LoadBalancer) => b.hostname == host,
                    (b: LoadBalancer) => b.ip)
  {
    at := [];
    if balancers != [] {
      var init, last := balancers[..|balancers| - 1], balancers[|balancers| - 1];
      at := AddressesAreSelected(init, host);
      assert init + [last] == balancers;
      SelectsOneMore(init, AddressesFor(init, host), at, (b: LoadBalancer) => b.hostname == host,
                     (b: LoadBalancer) => b.ip, last);
      if last.hostname == host { at := at + [|init|]; }
    }
  }

  /** A class is allowed exactly if its last dash-separated part is one of the three. */
  lemma AllowedClasses(parts: seq<string>)
    requires |parts| >= 1 && forall p :: p in parts ==> '-' !in p
    ensures AllowedClass(Join(parts, '-')) <==>
            parts[|parts| - 1] == "internett" || parts[|parts| - 1] == "helsenett" || parts[|parts| - 1] == "datacenter"
  {
    hide AllowedClass, IsAllowed, Split, Join;
    JoinSplits(parts, '-');
    AllowedIsLastPart(Join(parts, '-'));
    AllowedNames(parts[|parts| - 1]);
  }

  lemma AllowedNames(suffix: string)
    ensures IsAllowed(suffix) <==> suffix == "internett" || suffix == "helsenett" || suffix == "datacenter"
  {
    assert CLASSES[0] == "internett" && CLASSES[1] == "helsenett" && CLASSES[2] == "datacenter" && |CLASSES| == 3;
  }

  lemma RuleIsServed(spec: RuleSpec, rule: Rule, balancers: seq<LoadBalancer>, answer: string -> Replies)
    requires RuleAligns(spec, rule, balancers, answer)
    ensures HealthyRule(rule) <==> ServedRule(spec, balancers, answer)
  {
    AddressesOfHost(balancers, spec.host);
    hide Direct, AddressesFor, Serves;
    var specs := PathSpecs(spec);
    forall i | 0 <= i < |specs|
      ensures ServedPath(specs[i], answer) <==>
              rule.paths[i].service.kind == "NodePort" && rule.paths[i].service.endpoints != []
    {
      DirectServes(specs[i].backend.value, answer);
    }
    assert (forall i :: 0 <= i < |specs| ==> ServedPath(specs[i], answer))
      <==> (forall i :: 0 <= i < |rule.paths| ==>
              rule.paths[i].service.kind == "NodePort" && rule.paths[i].service.endpoints != []);
  }

  /** A lookup that fails leaves a path with the empty service. */
  lemma FailedLookupIsEmpty(name: string, answer: string -> Replies)
    ensures Errs(answer(name)) ==> Direct(name, answer) == Service("", "", "", [], [])
  {
    FetchedServiceHolds(name, answer(name));
  }

  /** With steady answers the outcome is decided by the specification alone: a panic exactly when a path has no
      service backend, and otherwise health 1 exactly when the ingress is served, and 3 when it is not. */
  lemma DetailsFollowTheSpecification(ingress: IngressSpec, oracle: Oracle, answer: string -> Replies)
    requires Steady(oracle, answer)
    ensures var r := Detailed(true, ingress, oracle);
            && Detailed(false, ingress, oracle) == NoClient
            && (r == MissingRules <==> ingress.rules.None?)
            && (r == NilPointerPanic <==> ingress.rules.Some? && !AllBacked(ingress.rules.value))
            && (r.Reported? ==> r.report.health == if Served(ingress, answer) then 1 else 3)
            && (r.Reported? ==>
                  && r.report.uid == ingress.uid && r.report.name == ingress.name
                  && r.report.namespace == ingress.namespace
                  && (ingress.className == Some(r.report.class_) || (ingress.className.None? && r.report.class_ == "")))
  {
    if ingress.rules.Some? {
      var specs := ingress.rules.value;
      RulesAlign(specs, ingress.balancers, oracle, answer);
      var tour := WalkRules(specs, ingress.balancers, oracle);
      hide AllowedClass, HealthyRule, ServedRule, WalkRules, Steady, RuleAligns, CacheIsDirect;
      if tour.Some? {
        forall i | 0 <= i < |specs|
          ensures HealthyRule(tour.value.rules[i]) <==> ServedRule(specs[i], ingress.balancers, answer)
        {
          RuleIsServed(specs[i], tour.value.rules[i], ingress.balancers, answer);
        }
      }
    }
  }
}
