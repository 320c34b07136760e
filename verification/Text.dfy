/** Go's strings.Split for a one-character separator. */
module Text {
  function Split(s: string, sep: char): (parts: seq<string>)
    ensures |parts| >= 1
  {
    if s == "" then [""]
    else
      var rest := Split(s[1..], sep);
      if s[0] == sep then [""] + rest else [[s[0]] + rest[0]] + rest[1..]
  }

  function Join(parts: seq<string>, sep: char): string
    requires |parts| >= 1
  {
    if |parts| == 1 then parts[0] else parts[0] + [sep] + Join(parts[1..], sep)
  }

  /** Splitting is the inverse of joining: the parts hold no separator and join back to the string. */
  lemma {:induction false} SplitJoins(s: string, sep: char)
    ensures Join(Split(s, sep), sep) == s
    ensures forall p :: p in Split(s, sep) ==> sep !in p
  {
    if s != "" {
      SplitJoins(s[1..], sep);
      var parts, rest := Split(s, sep), Split(s[1..], sep);
      if s[0] == sep {
        assert parts[1..] == rest;
      } else {
        assert parts[1..] == rest[1..];
        assert forall p :: p in parts ==> p == parts[0] || p in rest;
      }
    }
  }

  lemma {:induction false} JoinSplits(parts: seq<string>, sep: char)
    requires |parts| >= 1 && forall p :: p in parts ==> sep !in p
    ensures Split(Join(parts, sep), sep) == parts
    decreases |parts|, |parts[0]|
  {
    var s := Join(parts, sep);
    if parts[0] == "" {
      if |parts| > 1 {
        JoinSplits(parts[1..], sep);
        assert s[1..] == Join(parts[1..], sep);
      }
    } else {
      assert parts[0] in parts;
      var shorter := [parts[0][1..]] + parts[1..];
      assert forall p :: p in shorter ==> p == parts[0][1..] || p in parts;
      assert shorter[1..] == parts[1..];
      JoinSplits(shorter, sep);
      assert s[1..] == Join(shorter, sep);
      assert s[0] == parts[0][0] && s[0] in parts[0];
      assert [s[0]] + shorter[0] == parts[0] && [parts[0]] + parts[1..] == parts;
    }
  }
}
