/** The resource hash of internal/models/rorResources/resourcestype.go: what is cleaned away, what is hashed, and
    which objects get the same hash. Encoding and digest are one injective function, given as a parameter. */
module ResourceHash {
  import opened Common

  /** The keys the code names, and any other key. */
  datatype Key =
    | Metadata                // "metadata"
    | Annotations             // "annotations"
    | LastApplied             // "kubectl.kubernetes.io/last-applied-configuration"
    | ResourceVersion         // "resourceVersion"
    | CreationTimestamp       // "creationTimestamp"
    | Generation              // "generation"
    | ApiVersion              // "apiVersion"
    | Kind                    // "kind"
    | Uid                     // "uid"
    | Other(name: string)

  datatype Json =
    | Null
    | Bool(b: bool)
    | Number(digits: string)
    | Str(s: string)
    | Arr(items: seq<Json>)
    | Obj(fields: map<Key, Json>)

  type Fields = map<Key, Json>

  /** A Go type assertion to a map. */
  function MapAt(f: Fields, key: Key): Option<Fields> {
    if key in f && f[key].Obj? then Some(f[key].fields) else None
  }

  /** removeUnnecessaryDataFromObject. */
  function Cleaned(f: Fields): Fields {
    match MapAt(f, Metadata)
    case None => f
    case Some(md) =>
      match MapAt(md, Annotations)
      case None => f
      case Some(ann) =>
        var kept := ann - {LastApplied};
        f[Metadata := Obj(if |kept| == 0 then md - {Annotations} else md[Annotations := Obj(kept)])]
  }

  /** What calculateHashFromObject encodes. */
  function HashInput(f: Fields): Fields {
    var md := match MapAt(f, Metadata) { case Some(m) => m case None => map[] };
    f[Metadata := Obj(Nulled(md))]
  }

  function Nulled(md: Fields): Fields {
    md[ResourceVersion := Null][CreationTimestamp := Null][Generation := Null]
  }

  // ---- Go maps, which are shared by reference ----

  datatype Value = Plain(json: Json) | Nested(ref: GoMap)

  class GoMap {
    var entries: map<Key, Value>

    constructor (entries: map<Key, Value>)
      ensures this.entries == entries
    {
      this.entries := entries;
    }
  }

  function Sub(m: GoMap, key: Key): GoMap?
    reads m
  {
    if key in m.entries && m.entries[key].Nested? then m.entries[key].ref else null
  }

  function Meta(obj: GoMap): GoMap?
    reads obj
  {
    Sub(obj, Metadata)
  }

  function Ann(obj: GoMap): GoMap?
    reads obj, Meta(obj)
  {
    var md := Meta(obj);
    if md == null then null else Sub(md, Annotations)
  }

  type Entries = map<Key, Value>

  function EntriesOf(m: GoMap?): Option<Entries>
    reads m
  {
    if m == null then None else Some(m.entries)
  }

  /** Only `key` may hold a map by reference, and if it holds a map at all it does so by reference. */
  ghost predicate Flat(entries: Entries, key: Key) {
    forall k :: k in entries ==>
      && (entries[k].Nested? ==> k == key)
      && (entries[k].Plain? && k == key ==> !entries[k].json.Obj?)
  }

  ghost predicate FlatParts(o: Entries, md: Option<Entries>, ann: Option<Entries>) {
    && Flat(o, Metadata)
    && (md.Some? <==> Metadata in o && o[Metadata].Nested?)
    && (md.Some? ==> Flat(md.value, Annotations))
    && (ann.Some? <==> md.Some? && Annotations in md.value && md.value[Annotations].Nested?)
    && (ann.Some? ==> forall k :: k in ann.value ==> ann.value[k].Plain?)
  }

  /** An object as the client decodes it: the two maps the code changes are separate Go maps. */
  ghost predicate Shape(obj: GoMap)
    reads obj, Meta(obj), Ann(obj)
  {
    var md, ann := Meta(obj), Ann(obj);
    && md != obj && ann != obj && (ann != null ==> ann != md)
    && FlatParts(obj.entries, EntriesOf(md), EntriesOf(ann))
  }

  function Leaves(entries: Entries): Fields {
    map k | k in entries && entries[k].Plain? :: entries[k].json
  }

  function MetaTree(md: Entries, ann: Option<Entries>): Fields {
    if ann.None? then Leaves(md) else Leaves(md)[Annotations := Obj(Leaves(ann.value))]
  }

  function TreeOf(o: Entries, md: Option<Entries>, ann: Option<Entries>): Fields {
    if md.None? then Leaves(o) else Leaves(o)[Metadata := Obj(MetaTree(md.value, ann))]
  }

  /** The JSON tree an object stands for. */
  function Tree(obj: GoMap): Fields
    reads obj, Meta(obj), Ann(obj)
  {
    TreeOf(obj.entries, EntriesOf(Meta(obj)), EntriesOf(Ann(obj)))
  }

  // ---- The two operations on the entries alone ----

  lemma LeavesUpdated(entries: Entries, k: Key, json: Json, ref: GoMap)
    ensures Leaves(entries[k := Plain(json)]) == Leaves(entries)[k := json]
    ensures Leaves(entries[k := Nested(ref)]) == Leaves(entries) - {k}
    ensures Leaves(entries - {k}) == Leaves(entries) - {k}
  {
  }

  lemma UpdatedTwice(f: Fields, k: Key, v: Json, w: Json)
    ensures f[k := v][k := w] == f[k := w]
  {
  }

  /** A map without nested maps is its leaves. */
  lemma AllLeaves(entries: Entries)
    requires forall k :: k in entries ==> entries[k].Plain?
    ensures |Leaves(entries)| == |entries|
  {
    assert Leaves(entries).Keys == entries.Keys;
    assert |Leaves(entries)| == |Leaves(entries).Keys| && |entries| == |entries.Keys|;
  }

  lemma CleanedNested(o: Fields, m: Fields, a: Fields)
    requires Annotations !in m
    ensures Cleaned(o[Metadata := Obj(m[Annotations := Obj(a)])]) ==
            var kept := a - {LastApplied};
            o[Metadata := Obj(if |kept| == 0 then m else m[Annotations := Obj(kept)])]
  {
    var md, kept := m[Annotations := Obj(a)], a - {LastApplied};
    var f := o[Metadata := Obj(md)];
    assert MapAt(f, Metadata) == Some(md) && MapAt(md, Annotations) == Some(a);
    assert md - {Annotations} == m;
    UpdatedTwice(m, Annotations, Obj(a), Obj(kept));
    UpdatedTwice(o, Metadata, Obj(md), Obj(if |kept| == 0 then m else m[Annotations := Obj(kept)]));
  }

  lemma FlatAfterCleaning(o: Entries, md: Entries, ann: Entries)
    requires FlatParts(o, Some(md), Some(ann))
    ensures FlatParts(o, Some(md - {Annotations}), None)
    ensures FlatParts(o, Some(md), Some(ann - {LastApplied}))
  {
  }

  lemma TreesAfterCleaning(o: Entries, md: Entries, ann: Entries, ref: GoMap)
    requires Annotations !in Leaves(md)
    ensures TreeOf(o, Some(md - {Annotations}), None) == Leaves(o)[Metadata := Obj(Leaves(md))]
    ensures TreeOf(o, Some(md), Some(ann - {LastApplied})) ==
            Leaves(o)[Metadata := Obj(Leaves(md)[Annotations := Obj(Leaves(ann) - {LastApplied})])]
  {
    LeavesUpdated(ann, LastApplied, Null, ref);
    LeavesUpdated(md, Annotations, Null, ref);
    assert Leaves(md) - {Annotations} == Leaves(md);
  }

  lemma KeptSize(ann: Entries, ref: GoMap)
    requires forall k :: k in ann ==> ann[k].Plain?
    ensures |Leaves(ann) - {LastApplied}| == |ann - {LastApplied}|
  {
    LeavesUpdated(ann, LastApplied, Null, ref);
    AllLeaves(ann - {LastApplied});
  }

  lemma CleanedParts(o: Entries, md: Entries, ann: Entries, ref: GoMap)
    requires Annotations !in Leaves(md) && forall k :: k in ann ==> ann[k].Plain?
    ensures var kept := ann - {LastApplied};
            Cleaned(TreeOf(o, Some(md), Some(ann))) ==
            if |kept| == 0 then TreeOf(o, Some(md - {Annotations}), None) else TreeOf(o, Some(md), Some(kept))
  {
    CleanedNested(Leaves(o), Leaves(md), Leaves(ann));
    TreesAfterCleaning(o, md, ann, ref);
    KeptSize(ann, ref);
  }

  lemma NothingToClean(o: Entries, md: Option<Entries>)
    requires FlatParts(o, md, None)
    ensures Cleaned(TreeOf(o, md, None)) == TreeOf(o, md, None)
  {
    if md.Some? {
      assert MapAt(TreeOf(o, md, None), Metadata) == Some(Leaves(md.value));
      assert MapAt(Leaves(md.value), Annotations) == None;
    }
  }

  function NulledEntries(md: Entries): Entries {
    md[ResourceVersion := Plain(Null)][CreationTimestamp := Plain(Null)][Generation := Plain(Null)]
  }

  lemma NulledParts(o: Entries, md: Option<Entries>, ann: Option<Entries>, ref: GoMap)
    requires FlatParts(o, md, ann)
    ensures var md' := NulledEntries(if md.None? then map[] else md.value);
            TreeOf(o[Metadata := Nested(ref)], Some(md'), ann) == HashInput(TreeOf(o, md, ann))
  {
    var m := if md.None? then map[] else md.value;
    LeavesUpdated(m, ResourceVersion, Null, ref);
    LeavesUpdated(m[ResourceVersion := Plain(Null)], CreationTimestamp, Null, ref);
    LeavesUpdated(m[ResourceVersion := Plain(Null)][CreationTimestamp := Plain(Null)], Generation, Null, ref);
    assert Leaves(NulledEntries(m)) == Nulled(Leaves(m));
    LeavesUpdated(o, Metadata, Null, ref);
    if md.None? {
      assert Leaves(m) == map[];
    } else if ann.Some? {
      NulledAnnotations(Leaves(m), Leaves(ann.value));
    }
    var tree := if md.None? then map[] else MetaTree(m, ann);
    assert MetaTree(NulledEntries(m), ann) == Nulled(tree);
    HashInputOfParts(Leaves(o), if md.None? then None else Some(tree));
  }

  lemma NulledAnnotations(m: Fields, a: Fields)
    ensures Nulled(m[Annotations := Obj(a)]) == Nulled(m)[Annotations := Obj(a)]
  {
  }

  lemma HashInputOfParts(o: Fields, md: Option<Fields>)
    requires Metadata in o ==> !o[Metadata].Obj?
    ensures md.None? ==> HashInput(o) == (o - {Metadata})[Metadata := Obj(Nulled(map[]))]
    ensures md.Some? ==> HashInput(o[Metadata := Obj(md.value)]) == (o - {Metadata})[Metadata := Obj(Nulled(md.value))]
  {
  }

  // ---- The methods ----

  method Copy(m: GoMap) returns (c: GoMap)
    ensures fresh(c) && c.entries == m.entries
  {
    c := new GoMap(map[]);
    var rest := m.entries.Keys;
    while rest != {}
      invariant rest <= m.entries.Keys
      invariant c.entries == map k | k in m.entries && k !in rest :: m.entries[k]
      invariant m.entries == old(m.entries)
      invariant fresh(c)
      decreases rest
    {
      var k :| k in rest;
      c.entries := c.entries[k := m.entries[k]];
      rest := rest - {k};
    }
  }

  method RemoveUnnecessaryDataFromObject(obj: GoMap)
    requires Shape(obj)
    modifies Meta(obj), Ann(obj)
    ensures Shape(obj) && Meta(obj) == old(Meta(obj)) && Tree(obj) == Cleaned(old(Tree(obj)))
  {
    var md := Meta(obj);
    if md == null {
      NothingToClean(obj.entries, None);
      return;
    }
    var ann := Ann(obj);
    if ann == null {
      NothingToClean(obj.entries, Some(md.entries));
      return;
    }
    CleanedParts(obj.entries, md.entries, ann.entries, obj);
    FlatAfterCleaning(obj.entries, md.entries, ann.entries);
    ann.entries := ann.entries - {LastApplied};
    if |ann.entries| == 0 {
      md.entries := md.entries - {Annotations};
    }
  }

  /** Shallow copies only: the method changes nothing that its caller can see. */
  method CalculateHashFromObject(obj: GoMap, digest: Fields -> string) returns (hash: string)
    requires Shape(obj)
    ensures hash == digest(HashInput(Tree(obj)))
  {
    var hashObj := Copy(obj);
    var md := Meta(obj);
    var mdCopy: GoMap;
    if md == null {
      mdCopy := new GoMap(map[]);
    } else {
      mdCopy := Copy(md);
    }
    NulledParts(obj.entries, EntriesOf(md), EntriesOf(Ann(obj)), mdCopy);
    mdCopy.entries := mdCopy.entries[ResourceVersion := Plain(Null)];
    mdCopy.entries := mdCopy.entries[CreationTimestamp := Plain(Null)];
    mdCopy.entries := mdCopy.entries[Generation := Plain(Null)];
    hashObj.entries := hashObj.entries[Metadata := Nested(mdCopy)];
    assert Meta(hashObj) == mdCopy && Sub(mdCopy, Annotations) == Ann(obj);
    hash := digest(Tree(hashObj));
  }

  // ---- Which objects hash alike ----

  function MetaOf(f: Fields): Fields {
    match MapAt(f, Metadata)
    case Some(md) => md
    case None => map[]
  }

  predicate MapOrAbsent(v: Option<Json>) {
    v.None? || v.value.Obj?
  }

  function MapOf(v: Option<Json>): Fields
    requires MapOrAbsent(v)
  {
    if v.None? then map[] else v.value.fields
  }

  /** The same annotations apart from the last-applied one; empty ones count as absent. */
  ghost predicate SameAnnotations(a: Option<Json>, b: Option<Json>) {
    if MapOrAbsent(a) && MapOrAbsent(b)
    then forall k :: k != LastApplied ==> Get(MapOf(a), k) == Get(MapOf(b), k)
    else a == b
  }

  /** The two objects agree outside resourceVersion, creationTimestamp, generation and the last-applied annotation. */
  ghost predicate Alike(a: Fields, b: Fields) {
    && (forall k :: k != Metadata ==> Get(a, k) == Get(b, k))
    && (forall k :: k !in {ResourceVersion, CreationTimestamp, Generation, Annotations} ==>
          Get(MetaOf(a), k) == Get(MetaOf(b), k))
    && SameAnnotations(Get(MetaOf(a), Annotations), Get(MetaOf(b), Annotations))
  }

  lemma SameFields(a: Fields, b: Fields)
    ensures a == b <==> forall k :: Get(a, k) == Get(b, k)
  {
    if forall k :: Get(a, k) == Get(b, k) {
      forall k
        ensures k in a <==> k in b
        ensures k in a ==> a[k] == b[k]
      {
        assert Get(a, k) == Get(b, k);
      }
    }
  }

  /** The annotations that cleaning leaves. */
  function KeptAnnotations(v: Option<Json>): Option<Json> {
    if v.Some? && v.value.Obj? then
      var kept := v.value.fields - {LastApplied};
      if |kept| == 0 then None else Some(Obj(kept))
    else v
  }

  lemma SameButFor(x: Fields, y: Fields, key: Key)
    ensures x - {key} == y - {key} <==> forall k :: k != key ==> Get(x, k) == Get(y, k)
  {
    SameFields(x - {key}, y - {key});
    assert forall k :: k != key ==> Get(x - {key}, k) == Get(x, k) && Get(y - {key}, k) == Get(y, k);
  }

  lemma KeptOfMap(v: Option<Json>)
    requires MapOrAbsent(v)
    ensures var kept := MapOf(v) - {LastApplied};
            KeptAnnotations(v) == if kept == map[] then None else Some(Obj(kept))
  {
    var kept := MapOf(v) - {LastApplied};
    assert |kept| == 0 <==> kept == map[];
  }

  lemma KeptDecides(a: Option<Json>, b: Option<Json>)
    ensures KeptAnnotations(a) == KeptAnnotations(b) <==> SameAnnotations(a, b)
  {
    if MapOrAbsent(a) { KeptOfMap(a); }
    if MapOrAbsent(b) { KeptOfMap(b); }
    if MapOrAbsent(a) && MapOrAbsent(b) {
      SameButFor(MapOf(a), MapOf(b), LastApplied);
    }
  }

  lemma HashInputAt(f: Fields, k: Key)
    ensures Get(HashInput(Cleaned(f)), k) == if k == Metadata then Some(Obj(MetaOf(HashInput(Cleaned(f))))) else Get(f, k)
    ensures Get(MetaOf(HashInput(Cleaned(f))), k) ==
            if k in {ResourceVersion, CreationTimestamp, Generation} then Some(Null)
            else if k == Annotations then KeptAnnotations(Get(MetaOf(f), k))
            else Get(MetaOf(f), k)
  {
  }

  /** Cleaning and hashing give two objects the same input exactly when they are alike. */
  lemma HashDecidesAlike(a: Fields, b: Fields)
    ensures HashInput(Cleaned(a)) == HashInput(Cleaned(b)) <==> Alike(a, b)
  {
    var x, y := HashInput(Cleaned(a)), HashInput(Cleaned(b));
    SameFields(x, y);
    SameFields(MetaOf(x), MetaOf(y));
    KeptDecides(Get(MetaOf(a), Annotations), Get(MetaOf(b), Annotations));
    forall k
      ensures k != Metadata ==> (Get(x, k) == Get(y, k) <==> Get(a, k) == Get(b, k))
    {
      HashInputAt(a, k);
      HashInputAt(b, k);
    }
    forall k
      ensures Get(MetaOf(x), k) == Get(MetaOf(y), k) <==>
              if k in {ResourceVersion, CreationTimestamp, Generation} then true
              else if k == Annotations then SameAnnotations(Get(MetaOf(a), k), Get(MetaOf(b), k))
              else Get(MetaOf(a), k) == Get(MetaOf(b), k)
    {
      HashInputAt(a, k);
      HashInputAt(b, k);
    }
    HashInputAt(a, Metadata);
    HashInputAt(b, Metadata);
  }

  /** So with an injective encoding and digest, equal hashes mean alike objects and no more. */
  lemma EqualHashesMeanAlike(a: Fields, b: Fields, digest: Fields -> string)
    requires forall x, y :: digest(x) == digest(y) ==> x == y
    ensures digest(HashInput(Cleaned(a))) == digest(HashInput(Cleaned(b))) <==> Alike(a, b)
  {
    HashDecidesAlike(a, b);
  }

  /** Cleaning removes the last-applied annotation, then the annotations if none is left, and nothing else. */
  lemma CleanedAt(f: Fields, k: Key)
    ensures k != Metadata ==> Get(Cleaned(f), k) == Get(f, k)
    ensures MapAt(f, Metadata).None? ==> Cleaned(f) == f
    ensures MapAt(f, Metadata).Some? ==>
              && MapAt(Cleaned(f), Metadata).Some?
              && (k != Annotations ==> Get(MetaOf(Cleaned(f)), k) == Get(MetaOf(f), k))
              && Get(MetaOf(Cleaned(f)), Annotations) == KeptAnnotations(Get(MetaOf(f), Annotations))
  {
    match MapAt(f, Metadata)
    case None =>
    case Some(md) =>
      CleanedMetadata(f, md);
      WithAnnotations(md, KeptAnnotations(Get(md, Annotations)), k);
      hide Cleaned, KeptAnnotations, Annotated;
  }

  function Annotated(md: Fields, ann: Option<Json>): Fields {
    if ann.None? then md - {Annotations} else md[Annotations := ann.value]
  }

  lemma WithAnnotations(md: Fields, ann: Option<Json>, k: Key)
    ensures Get(Annotated(md, ann), k) == if k == Annotations then ann else Get(md, k)
    ensures Get(Annotated(md, ann), Annotations) == ann
  {
  }

  lemma CleanedMetadata(f: Fields, md: Fields)
    requires MapAt(f, Metadata) == Some(md)
    ensures Cleaned(f) == f[Metadata := Obj(Annotated(md, KeptAnnotations(Get(md, Annotations))))]
  {
    var v := Get(md, Annotations);
    assert f[Metadata := Obj(md)] == f;
    if v.None? {
      assert md - {Annotations} == md;
    } else if !v.value.Obj? {
      assert md[Annotations := v.value] == md;
    }
  }

  /** Of the annotations all but the last-applied one are kept. */
  lemma KeptAnnotationsAt(v: Option<Json>, k: Key)
    requires MapOrAbsent(v)
    ensures KeptAnnotations(v).None? <==> forall other :: other in MapOf(v) ==> other == LastApplied
    ensures KeptAnnotations(v).Some? ==>
              && KeptAnnotations(v).value.Obj?
              && Get(KeptAnnotations(v).value.fields, k) == if k == LastApplied then None else Get(MapOf(v), k)
  {
    KeptOfMap(v);
    var kept := MapOf(v) - {LastApplied};
    if kept == map[] {
      forall other | other in MapOf(v)
        ensures other == LastApplied
      {
        assert other in kept || other == LastApplied;
      }
    } else {
      assert exists other :: other in kept;
    }
  }

  /** Cleaning twice is cleaning once. */
  lemma CleanedTwice(f: Fields)
    ensures Cleaned(Cleaned(f)) == Cleaned(f)
  {
    match MapAt(f, Metadata)
    case None =>
    case Some(md) =>
      match MapAt(md, Annotations)
      case None =>
      case Some(ann) =>
        var kept := ann - {LastApplied};
        assert kept - {LastApplied} == kept;
        if |kept| != 0 {
          assert md[Annotations := Obj(kept)][Annotations := Obj(kept)] == md[Annotations := Obj(kept)];
          assert Cleaned(f)[Metadata := Cleaned(f)[Metadata]] == Cleaned(f);
        }
  }

  // ---- NewFromUnstructured ----

  datatype RorResource = RorResource(apiVersion: string, kind: string, uid: string, hash: string, resource: Fields)

  function StringAt(f: Fields, key: Key): string {
    if key in f && f[key].Str? then f[key].s else ""
  }

  /** API version, kind and uid are read from a string under their key; anything else reads as empty. */
  lemma StringAtReads(f: Fields, key: Key, x: string)
    ensures StringAt(f, key) == x <==>
            Get(f, key) == Some(Str(x)) || (x == "" && forall s :: Get(f, key) != Some(Str(s)))
  {
    assert key in f && f[key].Str? ==> Get(f, key) == Some(Str(f[key].s));
  }

  /** `handled` are the kinds the generated dispatch knows; `converts` says whether the typed conversion works. */
  method NewFromUnstructured(input: GoMap?, handled: set<(string, string)>, converts: bool, digest: Fields -> string)
    returns (r: Option<RorResource>)
    requires input != null ==> Shape(input)
    modifies if input == null then {} else {Meta(input), Ann(input)}
    ensures input == null ==> r == None
    ensures input != null ==> Shape(input) && Tree(input) == Cleaned(old(Tree(input)))
    ensures input != null ==>
      var f := old(Tree(input));
      r == if converts && (StringAt(f, ApiVersion), StringAt(f, Kind)) in handled
           then Some(RorResource(StringAt(f, ApiVersion), StringAt(f, Kind), StringAt(MetaOf(f), Uid),
                                 digest(HashInput(Cleaned(f))), Cleaned(f)))
           else None
  {
    if input == null {
      return None;
    }
    var f := Tree(input);
    var apiVersion, kind, uid := StringAt(f, ApiVersion), StringAt(f, Kind), StringAt(MetaOf(f), Uid);
    RemoveUnnecessaryDataFromObject(input);
    var hash := CalculateHashFromObject(input, digest);
    if (apiVersion, kind) !in handled || !converts {
      return None;
    }
    return Some(RorResource(apiVersion, kind, uid, hash, Tree(input)));
  }
}
