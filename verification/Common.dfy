/** Small shared types and string helpers. */
module Common {

  datatype Option<+T> = None | Some(value: T)

  /** Identifiers (UUIDs, Cloudflare record ids): only equality matters. */
  type Id = nat

  function LowerChar(c: char): (r: char)
  {
    if 'A' <= c <= 'Z' then c - 'A' + 'a' else c
  }

  /** ASCII lower-casing, the only letters hostnames and record contents use. */
  function Lower(s: string): (r: string)
    ensures |r| == |s|
    ensures forall i :: 0 <= i < |s| ==> r[i] == LowerChar(s[i])
  {
    if s == "" then "" else [LowerChar(s[0])] + Lower(s[1..])
  }

  // ---------------------------------------------------------------- splitting and joining

  function SplitOn(s: string, sep: char): (parts: seq<string>)
    ensures |parts| >= 1
  {
    if s == "" then [""]
    else
      var rest := SplitOn(s[1..], sep);
      if s[0] == sep then [""] + rest else [[s[0]] + rest[0]] + rest[1..]
  }

  function Join(parts: seq<string>, sep: string): string
  {
    if parts == [] then "" else if |parts| == 1 then parts[0] else parts[0] + sep + Join(parts[1..], sep)
  }

  lemma {:induction false} SplitPrefix(a: string, s: string, sep: char)
    requires sep !in a
    ensures SplitOn(a + s, sep) == [a + SplitOn(s, sep)[0]] + SplitOn(s, sep)[1..]
  {
    if a == "" {
      assert a + s == s && "" + SplitOn(s, sep)[0] == SplitOn(s, sep)[0];
      assert [SplitOn(s, sep)[0]] + SplitOn(s, sep)[1..] == SplitOn(s, sep);
    } else {
      assert (a + s)[0] == a[0] && (a + s)[1..] == a[1..] + s;
      SplitPrefix(a[1..], s, sep);
      assert [a[0]] + (a[1..] + SplitOn(s, sep)[0]) == a + SplitOn(s, sep)[0];
    }
  }

  lemma {:induction false} SplitJoin(parts: seq<string>, sep: char)
    requires parts != [] && forall p :: p in parts ==> sep !in p
    ensures SplitOn(Join(parts, [sep]), sep) == parts
  {
    if |parts| == 1 {
      SplitPrefix(parts[0], "", sep);
      assert parts[0] + "" == parts[0];
    } else {
      SplitJoin(parts[1..], sep);
      var rest := Join(parts[1..], [sep]);
      SplitPrefix(parts[0], [sep] + rest, sep);
      assert Join(parts, [sep]) == parts[0] + ([sep] + rest);
      assert ([sep] + rest)[1..] == rest && parts[0] + "" == parts[0];
      assert SplitOn([sep] + rest, sep) == [""] + SplitOn(rest, sep);
    }
  }

  lemma JoinExtended(c: char, parts: seq<string>, sep: string)
    requires parts != []
    ensures Join([[c] + parts[0]] + parts[1..], sep) == [c] + Join(parts, sep)
  {
    var longer := [[c] + parts[0]] + parts[1..];
    assert longer[1..] == parts[1..];
    if |parts| > 1 {
      assert [c] + parts[0] + sep + Join(parts[1..], sep) == [c] + (parts[0] + sep + Join(parts[1..], sep));
    }
  }

  lemma {:induction false} JoinSplit(s: string, sep: char)
    ensures Join(SplitOn(s, sep), [sep]) == s
  {
    if s != "" {
      JoinSplit(s[1..], sep);
      var rest := SplitOn(s[1..], sep);
      assert s == [s[0]] + s[1..];
      if s[0] == sep {
        assert ([""] + rest)[1..] == rest;
        assert "" + [sep] + s[1..] == [sep] + s[1..];
      } else {
        JoinExtended(s[0], rest, [sep]);
      }
    }
  }

  lemma {:induction false} SplitParts(s: string, sep: char)
    ensures forall p :: p in SplitOn(s, sep) ==> sep !in p
  {
    if s != "" {
      SplitParts(s[1..], sep);
      var rest := SplitOn(s[1..], sep);
      assert rest[0] in rest;
    }
  }
}
