/** The string primitives of the source (`lower`, `upper`, `split`, `join`,
    `replace`, `startswith`), with the facts the other modules rely on. */
module Strings {

  /** ASCII lower-casing of one character. */
  function LowerChar(c: char): char {
    if 'A' <= c <= 'Z' then (c as int + 32) as char else c
  }

  /** ASCII upper-casing of one character. */
  function UpperChar(c: char): char {
    if 'a' <= c <= 'z' then (c as int - 32) as char else c
  }

  /** `s.lower()`: same length, each capital made its own small letter, every
      other character kept. */
  function Lower(s: string): (r: string)
    ensures |r| == |s|
    ensures forall i :: 0 <= i < |s| ==> !('A' <= r[i] <= 'Z')
    ensures forall i :: 0 <= i < |s| && !('A' <= s[i] <= 'Z') ==> r[i] == s[i]
    ensures forall i :: 0 <= i < |s| && 'A' <= s[i] <= 'Z' ==> 'a' <= r[i] <= 'z' && UpperChar(r[i]) == s[i]
  {
    seq(|s|, i requires 0 <= i < |s| => LowerChar(s[i]))
  }

  /** `s.upper()`: same length, each small letter made its own capital, every
      other character kept. */
  function Upper(s: string): (r: string)
    ensures |r| == |s|
    ensures forall i :: 0 <= i < |s| ==> !('a' <= r[i] <= 'z')
    ensures forall i :: 0 <= i < |s| && !('a' <= s[i] <= 'z') ==> r[i] == s[i]
    ensures forall i :: 0 <= i < |s| && 'a' <= s[i] <= 'z' ==> 'A' <= r[i] <= 'Z' && LowerChar(r[i]) == s[i]
  {
    seq(|s|, i requires 0 <= i < |s| => UpperChar(s[i]))
  }

  predicate StartsWith(s: string, prefix: string) {
    |prefix| <= |s| && s[..|prefix|] == prefix
  }

  /** Number of occurrences of the character `c` in `s`. */
  function Count(s: string, c: char): nat {
    if s == [] then 0 else (if s[0] == c then 1 else 0) + Count(s[1..], c)
  }

  /** `s.split(sep)`: the text between the leftmost non-overlapping
      occurrences of `sep`; always at least one field. */
  function Split(s: string, sep: string): (fields: seq<string>)
    requires sep != []
    ensures |fields| >= 1
    decreases |s|
  {
    if |s| < |sep| then [s]
    else if StartsWith(s, sep) then [""] + Split(s[|sep|..], sep)
    else
      var rest := Split(s[1..], sep);
      [[s[0]] + rest[0]] + rest[1..]
  }

  /** `sep.join(parts)`. */
  function Join(parts: seq<string>, sep: string): (r: string)
    ensures |parts| > 0 ==> StartsWith(r, parts[0])
  {
    if |parts| == 0 then ""
    else if |parts| == 1 then parts[0]
    else parts[0] + sep + Join(parts[1..], sep)
  }

  /** `s.replace(pat, rep)`: one left-to-right pass that replaces each
      leftmost non-overlapping occurrence of `pat`. */
  function Replace(s: string, pat: string, rep: string): (r: string)
    requires pat != []
    ensures |rep| == |pat| ==> |r| == |s|
    ensures rep == pat ==> r == s
    decreases |s|
  {
    if |s| < |pat| then s
    else if StartsWith(s, pat) then rep + Replace(s[|pat|..], pat, rep)
    else [s[0]] + Replace(s[1..], pat, rep)
  }

  // ---------------------------------------------------------------------
  // Join and Split

  /** A character that is in neither the parts nor the separator is not in
      the joined text. */
  lemma {:induction false} JoinAvoids(parts: seq<string>, sep: string, c: char)
    requires c !in sep
    requires forall p :: p in parts ==> c !in p
    ensures c !in Join(parts, sep)
    decreases |parts|
  {
    if |parts| == 1 {
      assert parts[0] in parts;
    } else if |parts| > 1 {
      assert parts[0] in parts;
      assert forall p :: p in parts[1..] ==> p in parts;
      JoinAvoids(parts[1..], sep, c);
    }
  }

  /** Joining one more part puts it after the others, behind a separator
      when there were any. */
  lemma {:induction false} JoinSnoc(parts: seq<string>, x: string, sep: string)
    ensures Join(parts + [x], sep) == if parts == [] then x else Join(parts, sep) + sep + x
    decreases |parts|
  {
    if |parts| == 1 {
      assert parts + [x] == [parts[0], x];
      assert [parts[0], x][1..] == [x];
    } else if |parts| > 1 {
      assert (parts + [x])[1..] == parts[1..] + [x];
      JoinSnoc(parts[1..], x, sep);
    }
  }

  lemma {:induction false} JoinExtendHead(x: string, parts: seq<string>, sep: string)
    requires |parts| >= 1
    ensures Join([x + parts[0]] + parts[1..], sep) == x + Join(parts, sep)
  {
    var t := [x + parts[0]] + parts[1..];
    assert t[1..] == parts[1..];
  }

  /** `s.replace(pat, rep) == rep.join(s.split(pat))`: replacing substitutes
      `rep` for exactly the separators `Split` finds and keeps all other text. */
  lemma {:induction false} ReplaceIsJoinOfSplit(s: string, pat: string, rep: string)
    requires pat != []
    ensures Replace(s, pat, rep) == Join(Split(s, pat), rep)
    decreases |s|
  {
    if |s| < |pat| {
    } else if StartsWith(s, pat) {
      ReplaceIsJoinOfSplit(s[|pat|..], pat, rep);
      var rest := Split(s[|pat|..], pat);
      assert ([""] + rest)[1..] == rest;
    } else {
      ReplaceIsJoinOfSplit(s[1..], pat, rep);
      JoinExtendHead([s[0]], Split(s[1..], pat), rep);
    }
  }

  /** Joining the fields back with the separator gives the original text. */
  lemma {:induction false} JoinOfSplit(s: string, sep: string)
    requires sep != []
    ensures Join(Split(s, sep), sep) == s
    decreases |s|
  {
    if |s| < |sep| {
    } else if StartsWith(s, sep) {
      JoinOfSplit(s[|sep|..], sep);
      var rest := Split(s[|sep|..], sep);
      assert ([""] + rest)[1..] == rest;
      assert s == sep + s[|sep|..];
    } else {
      JoinOfSplit(s[1..], sep);
      JoinExtendHead([s[0]], Split(s[1..], sep), sep);
      assert s == [s[0]] + s[1..];
    }
  }

  /** A text without the separator is one field. */
  lemma {:induction false} SplitWithoutDash(a: string)
    requires '-' !in a
    ensures Split(a, "-") == [a]
    decreases |a|
  {
    if a != [] {
      assert a[..1] == [a[0]];
      SplitWithoutDash(a[1..]);
      assert [a[0]] + a[1..] == a;
    }
  }

  /** The first dash ends the first field. */
  lemma {:induction false} SplitAtDash(a: string, b: string)
    requires '-' !in a
    ensures Split(a + "-" + b, "-") == [a] + Split(b, "-")
    decreases |a|
  {
    var s := a + "-" + b;
    if a == [] {
      assert s == "-" + b;
      assert s[1..] == b;
    } else {
      assert s[..1] == [a[0]];
      assert s[1..] == a[1..] + "-" + b;
      SplitAtDash(a[1..], b);
      assert [a[0]] + a[1..] == a;
    }
  }

  /** `s.split('-')` has one field more than `s` has dashes. */
  lemma {:induction false} SplitDashCount(s: string)
    ensures |Split(s, "-")| == Count(s, '-') + 1
    decreases |s|
  {
    if s != [] {
      SplitDashCount(s[1..]);
      if s[0] == '-' {
        assert StartsWith(s, "-");
      } else {
        assert s[..1] == [s[0]];
      }
    }
  }

  /** No field of `s.split('-')` holds a dash. */
  lemma {:induction false} SplitDashFields(s: string)
    ensures forall f :: f in Split(s, "-") ==> '-' !in f
    decreases |s|
  {
    if s != [] {
      SplitDashFields(s[1..]);
      if s[0] != '-' {
        assert s[..1] == [s[0]];
        var rest := Split(s[1..], "-");
        assert '-' !in rest[0];
        assert '-' !in [s[0]] + rest[0];
      }
    }
  }

  // ---------------------------------------------------------------------
  // Case conversion

  lemma LowerConcat(a: string, b: string)
    ensures Lower(a + b) == Lower(a) + Lower(b)
  {
    assert forall i :: 0 <= i < |a + b| ==> Lower(a + b)[i] == (Lower(a) + Lower(b))[i];
  }

  /** Lower-casing keeps every dash where it was and adds none. */
  lemma {:induction false} LowerKeepsDashes(s: string)
    ensures Count(Lower(s), '-') == Count(s, '-')
    decreases |s|
  {
    if s != [] {
      assert Lower(s)[1..] == Lower(s[1..]);
      LowerKeepsDashes(s[1..]);
    }
  }

  lemma LowerWithoutDash(a: string)
    requires '-' !in a
    ensures '-' !in Lower(a)
  {
    forall i | 0 <= i < |a| ensures Lower(a)[i] != '-' {
      assert a[i] != '-';
    }
  }
}
