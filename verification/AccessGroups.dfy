/** Access groups of internal/services/heartbeat.go: split six strings, print them with their role prefixes. */
module AccessGroups {
  import opened Common
  import opened Text

  const KEYS := ["accessGroups", "readOnlyAccessGroups", "grafanaAdminGroups", "grafanaReadOnlyGroups",
                 "argocdAdminGroups", "argocdReadOnlyGroups"]

  const PREFIXES := ["Cluster Operator - ", "Cluster ReadOnly - ", "Grafana Operator - ", "Grafana ReadOnly - ",
                     "ArgoCD Operator - ", "ArgoCD ReadOnly - "]

  datatype Groups = Groups(
    accessGroups: seq<string>, readOnlyAccessGroups: seq<string>,
    grafanaAdminGroups: seq<string>, grafanaReadOnlyGroups: seq<string>,
    argocdAdminGroups: seq<string>, argocdReadOnlyGroups: seq<string>)
  {
    /** The six lists in printing order. */
    function Lists(): (lists: seq<seq<string>>)
      ensures |lists| == 6
    {
      [accessGroups, readOnlyAccessGroups, grafanaAdminGroups, grafanaReadOnlyGroups, argocdAdminGroups, argocdReadOnlyGroups]
    }
  }

  /** A Go map lookup: the empty string for an absent key. */
  function Lookup(data: map<string, string>, key: string): string {
    if key in data then data[key] else ""
  }

  function NewAccessGroupsFromData(data: Option<map<string, string>>): Groups {
    match data
    case None => Groups([], [], [], [], [], [])
    case Some(d) =>
      Groups(Split(Lookup(d, KEYS[0]), ';'), Split(Lookup(d, KEYS[1]), ';'), Split(Lookup(d, KEYS[2]), ';'),
             Split(Lookup(d, KEYS[3]), ';'), Split(Lookup(d, KEYS[4]), ';'), Split(Lookup(d, KEYS[5]), ';'))
  }

  function NonEmpty(groups: seq<string>): seq<string> {
    if groups == [] then []
    else NonEmpty(groups[..|groups| - 1]) + if groups[|groups| - 1] != "" then [groups[|groups| - 1]] else []
  }

  function Prefixed(prefix: string, groups: seq<string>): seq<string> {
    seq(|groups|, i requires 0 <= i < |groups| => prefix + groups[i])
  }

  function Printed(lists: seq<seq<string>>, n: nat): seq<string>
    requires n <= |lists| <= 6
  {
    if n == 0 then [] else Printed(lists, n - 1) + Prefixed(PREFIXES[n - 1], NonEmpty(lists[n - 1]))
  }

  method AppendGroups(result: seq<string>, prefix: string, groups: seq<string>) returns (result': seq<string>)
    ensures result' == result + Prefixed(prefix, NonEmpty(groups))
  {
    result' := result;
    for i := 0 to |groups|
      invariant result' == result + Prefixed(prefix, NonEmpty(groups[..i]))
    {
      assert groups[..i + 1][..i] == groups[..i];
      if groups[i] != "" {
        result' := result' + [prefix + groups[i]];
        assert Prefixed(prefix, NonEmpty(groups[..i + 1])) == Prefixed(prefix, NonEmpty(groups[..i])) + [prefix + groups[i]];
      }
    }
    assert groups[..|groups|] == groups;
  }

  method StringArray(a: Groups) returns (result: seq<string>)
    ensures result == Printed(a.Lists(), 6)
  {
    var lists := a.Lists();
    result := AppendGroups([], PREFIXES[0], a.accessGroups);
    assert result == Printed(lists, 1);
    result := AppendGroups(result, PREFIXES[1], a.readOnlyAccessGroups);
    assert result == Printed(lists, 2);
    result := AppendGroups(result, PREFIXES[2], a.grafanaAdminGroups);
    assert result == Printed(lists, 3);
    result := AppendGroups(result, PREFIXES[3], a.grafanaReadOnlyGroups);
    assert result == Printed(lists, 4);
    result := AppendGroups(result, PREFIXES[4], a.argocdAdminGroups);
    assert result == Printed(lists, 5);
    result := AppendGroups(result, PREFIXES[5], a.argocdReadOnlyGroups);
  }

  // ---- Decoding ----

  /** Read one role back: the names behind its prefix, in order. */
  function Decoded(printed: seq<string>, prefix: string): seq<string> {
    if printed == [] then [] else
    var init, last := printed[..|printed| - 1], printed[|printed| - 1];
    Decoded(init, prefix) + if prefix <= last then [last[|prefix|..]] else []
  }

  lemma {:induction false} DecodedJoin(a: seq<string>, b: seq<string>, prefix: string)
    ensures Decoded(a + b, prefix) == Decoded(a, prefix) + Decoded(b, prefix)
  {
    if b == [] {
      assert a + b == a;
    } else {
      assert (a + b)[..|a + b| - 1] == a + b[..|b| - 1];
      DecodedJoin(a, b[..|b| - 1], prefix);
    }
  }

  /** No prefix can be mistaken for another, whatever name follows it. */
  lemma PrefixesAreApart(i: nat, j: nat, name: string)
    requires i < 6 && j < 6 && i != j
    ensures !(PREFIXES[j] <= PREFIXES[i] + name)
  {
    var a, b := PREFIXES[i], PREFIXES[j];
    var t := a + name;
    assert a[0] == t[0] && a[8] == t[8] && a[7] == t[7];
    assert b[0] != a[0] || b[7] != a[7] || b[8] != a[8];
  }

  lemma {:induction false} DecodedPrefixed(groups: seq<string>, i: nat, j: nat)
    requires i < 6 && j < 6
    ensures Decoded(Prefixed(PREFIXES[i], groups), PREFIXES[j]) == if i == j then groups else []
  {
    if groups != [] {
      var n := |groups| - 1;
      DecodedPrefixed(groups[..n], i, j);
      assert Prefixed(PREFIXES[i], groups)[..n] == Prefixed(PREFIXES[i], groups[..n]);
      if i == j {
        assert (PREFIXES[i] + groups[n])[|PREFIXES[i]|..] == groups[n];
        assert groups == groups[..n] + [groups[n]];
      } else {
        PrefixesAreApart(i, j, groups[n]);
      }
    }
  }

  lemma {:induction false} DecodedPrinted(lists: seq<seq<string>>, n: nat, j: nat)
    requires n <= |lists| <= 6 && j < |lists|
    ensures Decoded(Printed(lists, n), PREFIXES[j]) == if j < n then NonEmpty(lists[j]) else []
  {
    if n > 0 {
      DecodedPrinted(lists, n - 1, j);
      DecodedJoin(Printed(lists, n - 1), Prefixed(PREFIXES[n - 1], NonEmpty(lists[n - 1])), PREFIXES[j]);
      DecodedPrefixed(NonEmpty(lists[n - 1]), n - 1, j);
    }
  }

  predicate IsNonEmpty(group: string) {
    group != ""
  }

  /** The empty groups are dropped, and the others keep their order. */
  lemma {:induction false} NonEmptyAreSelected(groups: seq<string>) returns (at: seq<nat>)
    ensures Selects(groups, NonEmpty(groups), at, IsNonEmpty, Same)
  {
    at := [];
    if groups != [] {
      var init, last := groups[..|groups| - 1], groups[|groups| - 1];
      at := NonEmptyAreSelected(init);
      hide Selects;
      assert init + [last] == groups;
      SelectsOneMore(init, NonEmpty(init), at, IsNonEmpty, Same, last);
      if last != "" {
        at := at + [|init|];
      } else {
        assert NonEmpty(groups) == NonEmpty(init);
      }
    }
  }

  const ROLES := [
    ("Cluster Operator - ", "accessGroups"), ("Cluster ReadOnly - ", "readOnlyAccessGroups"),
    ("Grafana Operator - ", "grafanaAdminGroups"), ("Grafana ReadOnly - ", "grafanaReadOnlyGroups"),
    ("ArgoCD Operator - ", "argocdAdminGroups"), ("ArgoCD ReadOnly - ", "argocdReadOnlyGroups")]

  lemma RoleOf(j: nat)
    requires j < 6
    ensures ROLES[j] == (PREFIXES[j], KEYS[j])
  {
    assert j == 0 || j == 1 || j == 2 || j == 3 || j == 4 || j == 5;
  }

  /** Printing the groups of a config map and reading one role back gives the non-empty parts of that role's own
      entry in order; an absent entry counts as empty. */
  lemma PrintedGroupsDecode(data: map<string, string>, j: nat)
    requires j < 6
    ensures var entry := if ROLES[j].1 in data then data[ROLES[j].1] else "";
            Decoded(Printed(NewAccessGroupsFromData(Some(data)).Lists(), 6), ROLES[j].0) == NonEmpty(Split(entry, ';'))
  {
    var lists := NewAccessGroupsFromData(Some(data)).Lists();
    DecodedPrinted(lists, 6, j);
    RoleOf(j);
    assert lists[j] == Split(Lookup(data, KEYS[j]), ';') by {
      assert j == 0 || j == 1 || j == 2 || j == 3 || j == 4 || j == 5;
    }
    hide Split, NonEmpty, Decoded, Printed;
  }

  /** The roles come one after the other in this order; without a config map nothing is printed. */
  lemma RolesInOrder(data: map<string, string>, j: nat)
    requires j < 6
    ensures var lists := NewAccessGroupsFromData(Some(data)).Lists();
            && Printed(lists, 0) == []
            && exists names :: Printed(lists, j + 1) == Printed(lists, j) + Prefixed(ROLES[j].0, names)
    ensures Printed(NewAccessGroupsFromData(None).Lists(), 6) == []
  {
    var lists := NewAccessGroupsFromData(Some(data)).Lists();
    RoleOf(j);
    assert Printed(lists, j + 1) == Printed(lists, j) + Prefixed(ROLES[j].0, NonEmpty(lists[j]));
    NothingPrinted(6);
  }

  lemma {:induction false} NothingPrinted(n: nat)
    requires n <= 6
    ensures Printed(NewAccessGroupsFromData(None).Lists(), n) == []
  {
    if n > 0 {
      NothingPrinted(n - 1);
      var none := NewAccessGroupsFromData(None).Lists();
      assert n - 1 == 0 || n - 1 == 1 || n - 1 == 2 || n - 1 == 3 || n - 1 == 4 || n - 1 == 5;
      assert none[n - 1] == [];
    }
  }

  /** The printed list determines all six filtered lists, and is determined by them. */
  lemma PrintedListIsUnique(a: Groups, b: Groups)
    ensures Printed(a.Lists(), 6) == Printed(b.Lists(), 6)
       <==> forall j :: 0 <= j < 6 ==> NonEmpty(a.Lists()[j]) == NonEmpty(b.Lists()[j])
  {
    var x, y := a.Lists(), b.Lists();
    if Printed(x, 6) == Printed(y, 6) {
      forall j | 0 <= j < 6
        ensures NonEmpty(x[j]) == NonEmpty(y[j])
      {
        DecodedPrinted(x, 6, j);
        DecodedPrinted(y, 6, j);
      }
    } else if forall j :: 0 <= j < 6 ==> NonEmpty(x[j]) == NonEmpty(y[j]) {
      SamePrint(x, y, 6);
    }
  }

  lemma {:induction false} SamePrint(a: seq<seq<string>>, b: seq<seq<string>>, n: nat)
    requires |a| == |b| == 6 && n <= 6
    requires forall j :: 0 <= j < 6 ==> NonEmpty(a[j]) == NonEmpty(b[j])
    ensures Printed(a, n) == Printed(b, n)
  {
    if n > 0 {
      SamePrint(a, b, n - 1);
    }
  }
}
