/** The part normaliser of the Libero backend (`Libero.set_part`): the first
    match of `(\w+)-(\w+)-*(\w*)` gives family, speed and package; the speed
    and package trade places when the speed is the longer one, and an empty
    speed becomes 'STD'. */
module LiberoPart {
  import opened Wrappers
  import opened Errors
  import opened Strings

  const LIBERO_PART := "mpf100t-1-fcg484"
  const LIBERO_PART_ERROR := "Part must be FAMILY-SPEED-PACKAGE or FAMILY-PACKAGE"
  const DEFAULT_SPEED := "STD"

  /** `\w`, restricted to ASCII. */
  predicate IsWordChar(c: char) {
    'a' <= c <= 'z' || 'A' <= c <= 'Z' || '0' <= c <= '9' || c == '_'
  }

  predicate IsWord(w: string) {
    forall k :: 0 <= k < |w| ==> IsWordChar(w[k])
  }

  /** The end of the longest run of word characters starting at `i`. */
  function WordEnd(s: string, i: nat): (e: nat)
    requires i <= |s|
    ensures i <= e <= |s| && IsWord(s[i..e])
    ensures e == |s| || !IsWordChar(s[e])
    decreases |s| - i
  {
    if i < |s| && IsWordChar(s[i]) then
      var e := WordEnd(s, i + 1);
      assert s[i..e] == [s[i]] + s[i + 1..e];
      e
    else i
  }

  /** The end of the longest run of dashes starting at `i`. */
  function DashEnd(s: string, i: nat): (e: nat)
    requires i <= |s|
    ensures i <= e <= |s|
    ensures forall k :: i <= k < e ==> s[k] == '-'
    ensures e == |s| || s[e] != '-'
    decreases |s| - i
  {
    if i < |s| && s[i] == '-' then DashEnd(s, i + 1) else i
  }

  /** The three groups of one match. */
  datatype Groups = Groups(family: string, speed: string, package: string)

  /** The match of the pattern that starts at `i`, if any. Each group is
      greedy, and no shorter choice for a group can make a failed attempt
      succeed: the first group must end at a dash and the second must be
      non-empty, and the last two parts may be empty. */
  function MatchAt(s: string, i: nat): (r: Option<Groups>)
    requires i <= |s|
    ensures r.Some? ==> r.value.family != "" && r.value.speed != ""
    ensures r.Some? ==> IsWord(r.value.family) && IsWord(r.value.speed) && IsWord(r.value.package)
    ensures r.Some? ==> StartsWith(s[i..], r.value.family + "-" + r.value.speed)
  {
    var e1 := WordEnd(s, i);
    if e1 == i || e1 == |s| || s[e1] != '-' then None
    else
      var e2 := WordEnd(s, e1 + 1);
      if e2 == e1 + 1 then None
      else
        var e3 := DashEnd(s, e2);
        var e4 := WordEnd(s, e3);
        assert s[i..][..e2 - i] == s[i..e1] + "-" + s[e1 + 1..e2];
        Some(Groups(s[i..e1], s[e1 + 1..e2], s[e3..e4]))
  }

  /** The leftmost match at or after `i`: the first element of `re.findall`. */
  function FirstMatch(s: string, i: nat): (r: Option<Groups>)
    requires i <= |s|
    ensures r.None? ==> forall k :: i <= k <= |s| ==> MatchAt(s, k).None?
    ensures r.Some? ==> r.value.family != "" && r.value.speed != ""
    decreases |s| - i
  {
    if MatchAt(s, i).Some? then MatchAt(s, i)
    else if i == |s| then None
    else FirstMatch(s, i + 1)
  }

  /** The normalised part, or the error `set_part` raises. */
  function Normalise(part: string): (r: Result<string, Error>)
    ensures r.Failure? ==> r.error == MalformedPart(LIBERO_PART_ERROR)
  {
    match FirstMatch(part, 0)
    case None => Failure(MalformedPart(LIBERO_PART_ERROR))
    case Some(g) =>
      var speed := if |g.speed| > |g.package| then g.package else g.speed;
      var package := if |g.speed| > |g.package| then g.speed else g.package;
      Success(g.family + "-" + (if speed == "" then DEFAULT_SPEED else speed) + "-" + package)
  }

  /** Three non-empty fields of word characters joined by dashes. */
  predicate IsCanonical(part: string) {
    var fields := Split(part, "-");
    |fields| == 3 && forall f :: f in fields ==> f != "" && IsWord(f)
  }

  /** A dash with a word character on both sides: what any match needs. */
  predicate HasWordDashWord(s: string) {
    exists j :: 0 < j < |s| - 1 && s[j] == '-' && IsWordChar(s[j - 1]) && IsWordChar(s[j + 1])
  }

  // ---------------------------------------------------------------------
  // The scanner

  /** Where a match starts, its first group ends at a word-dash-word. */
  lemma MatchNeedsDash(s: string, i: nat)
    requires i <= |s| && MatchAt(s, i).Some?
    ensures HasWordDashWord(s)
  {
    var j := WordEnd(s, i);
    assert s[i..j][j - 1 - i] == s[j - 1];
    var e2 := WordEnd(s, j + 1);
    assert s[j + 1..e2][0] == s[j + 1];
  }

  /** A word character before a dash before a word character starts a match. */
  lemma MatchAtDash(s: string, j: nat)
    requires 0 < j < |s| - 1 && s[j] == '-' && IsWordChar(s[j - 1]) && IsWordChar(s[j + 1])
    ensures MatchAt(s, j - 1).Some?
  {
    assert WordEnd(s, j) == j;
  }

  lemma {:induction false} FirstMatchFrom(s: string, i: nat, k: nat)
    requires i <= k <= |s| && MatchAt(s, k).Some?
    ensures FirstMatch(s, i).Some?
    decreases k - i
  {
    if MatchAt(s, i).None? {
      FirstMatchFrom(s, i + 1, k);
    }
  }

  /** `k` is the least position at or after `i` where the pattern matches. */
  predicate LeastMatch(s: string, i: nat, k: nat) {
    i <= k <= |s| && MatchAt(s, k).Some? && forall j :: i <= j < k ==> MatchAt(s, j).None?
  }

  /** What the search finds is the match at the least position that has one,
      as `re.findall(...)[0]` is. */
  lemma {:induction false} FirstMatchIsMatch(s: string, i: nat)
    requires i <= |s| && FirstMatch(s, i).Some?
    ensures exists k :: LeastMatch(s, i, k) && FirstMatch(s, i) == MatchAt(s, k)
    decreases |s| - i
  {
    if MatchAt(s, i).None? {
      FirstMatchIsMatch(s, i + 1);
      var k :| LeastMatch(s, i + 1, k) && FirstMatch(s, i + 1) == MatchAt(s, k);
      LeastMatchStep(s, i, k);
    } else {
      assert LeastMatch(s, i, i);
    }
  }

  /** No match at `i` moves the least match from `i + 1` back to `i`. */
  lemma LeastMatchStep(s: string, i: nat, k: nat)
    requires i < |s| && MatchAt(s, i).None? && LeastMatch(s, i + 1, k)
    ensures LeastMatch(s, i, k) && FirstMatch(s, i) == FirstMatch(s, i + 1)
  {
  }

  /** A run of word characters from `i` to `j` that nothing extends ends
      the longest run. */
  lemma {:induction false} WordEndIn(x: string, i: nat, j: nat)
    requires i <= j <= |x| && IsWord(x[i..j]) && (j == |x| || !IsWordChar(x[j]))
    ensures WordEnd(x, i) == j
    decreases j - i
  {
    if i < j {
      assert x[i..j][0] == x[i];
      assert x[i + 1..j] == x[i..j][1..];
      WordEndIn(x, i + 1, j);
    }
  }

  /** The match that starts at `i` when its pieces end at `e1` to `e4`. */
  lemma MatchParts(x: string, i: nat, e1: nat, e2: nat, e3: nat, e4: nat)
    requires i < e1 < e2 <= e3 <= e4 <= |x|
    requires x[e1] == '-' && WordEnd(x, i) == e1 && WordEnd(x, e1 + 1) == e2
    requires e2 > e1 + 1 && DashEnd(x, e2) == e3 && WordEnd(x, e3) == e4
    ensures MatchAt(x, i) == Some(Groups(x[i..e1], x[e1 + 1..e2], x[e3..e4]))
  {
  }

  /** The match of `F-S-P` from the start. */
  lemma MatchThree(f: string, s: string, p: string)
    requires f != "" && s != "" && IsWord(f) && IsWord(s) && IsWord(p)
    ensures MatchAt(f + "-" + s + "-" + p, 0) == Some(Groups(f, s, p))
  {
    var x := f + "-" + s + "-" + p;
    var e1, e2 := |f|, |f| + 1 + |s|;
    assert x[0..e1] == f;
    assert x[e1 + 1..e2] == s;
    assert x[e2 + 1..|x|] == p;
    WordEndIn(x, 0, e1);
    WordEndIn(x, e1 + 1, e2);
    assert DashEnd(x, e2 + 1) == e2 + 1;
    WordEndIn(x, e2 + 1, |x|);
    MatchParts(x, 0, e1, e2, e2 + 1, |x|);
  }

  /** The match of `F-S` from the start: the last group is empty. */
  lemma MatchTwo(f: string, s: string)
    requires f != "" && s != "" && IsWord(f) && IsWord(s)
    ensures MatchAt(f + "-" + s, 0) == Some(Groups(f, s, ""))
  {
    var x := f + "-" + s;
    var e1 := |f|;
    assert x[0..e1] == f;
    assert x[e1 + 1..|x|] == s;
    assert x[|x|..|x|] == "";
    WordEndIn(x, 0, e1);
    WordEndIn(x, e1 + 1, |x|);
    MatchParts(x, 0, e1, |x|, |x|, |x|);
  }

  // ---------------------------------------------------------------------
  // What the normaliser promises

  /** It fails exactly when no dash has a word character on both sides; the
      failure is the error `set_part` raises. */
  lemma NormaliseFailsExactly(part: string)
    ensures Normalise(part).Failure? <==> !HasWordDashWord(part)
    ensures Normalise(part).Failure? ==> Normalise(part).error == MalformedPart(LIBERO_PART_ERROR)
  {
    DashFound(part);
    FoundDash(part);
  }

  lemma DashFound(part: string)
    ensures HasWordDashWord(part) ==> FirstMatch(part, 0).Some?
  {
    if HasWordDashWord(part) {
      var j :| 0 < j < |part| - 1 && part[j] == '-' && IsWordChar(part[j - 1]) && IsWordChar(part[j + 1]);
      MatchAtDash(part, j);
      FirstMatchFrom(part, 0, j - 1);
    }
  }

  lemma FoundDash(part: string)
    ensures FirstMatch(part, 0).Some? ==> HasWordDashWord(part)
  {
    if FirstMatch(part, 0).Some? {
      FirstMatchIsMatch(part, 0);
      var k :| LeastMatch(part, 0, k) && FirstMatch(part, 0) == MatchAt(part, k);
      MatchNeedsDash(part, k);
    }
  }

  lemma WordNoDash(w: string)
    requires IsWord(w)
    ensures '-' !in w
  {
    forall k | 0 <= k < |w| ensures w[k] != '-' {
      assert IsWordChar(w[k]);
    }
  }

  /** Three non-empty word fields joined by two dashes are canonical. */
  lemma CanonicalOf(f: string, s: string, p: string)
    requires f != "" && s != "" && p != "" && IsWord(f) && IsWord(s) && IsWord(p)
    ensures IsCanonical(f + "-" + s + "-" + p)
  {
    WordNoDash(f);
    WordNoDash(s);
    WordNoDash(p);
    assert f + "-" + s + "-" + p == f + "-" + (s + "-" + p);
    SplitAtDash(f, s + "-" + p);
    SplitAtDash(s, p);
    SplitWithoutDash(p);
  }

  lemma {:induction false} FirstMatchWords(x: string, i: nat)
    requires i <= |x| && FirstMatch(x, i).Some?
    ensures var g := FirstMatch(x, i).value;
      g.family != "" && g.speed != "" && IsWord(g.family) && IsWord(g.speed) && IsWord(g.package)
    decreases |x| - i
  {
    if MatchAt(x, i).None? {
      FirstMatchWords(x, i + 1);
    }
  }

  /** A stored Libero part always has three non-empty fields, the speed
      among them. */
  lemma NormaliseShape(part: string)
    requires Normalise(part).Success?
    ensures IsCanonical(Normalise(part).value)
  {
    var g := FirstMatch(part, 0).value;
    FirstMatchWords(part, 0);
    var speed := if |g.speed| > |g.package| then g.package else g.speed;
    var package := if |g.speed| > |g.package| then g.speed else g.package;
    var shown := if speed == "" then DEFAULT_SPEED else speed;
    assert IsWord(DEFAULT_SPEED);
    CanonicalOf(g.family, shown, package);
  }

  /** `F-S-P` with a speed no longer than the package stays as it is. */
  lemma ThreeFieldFixed(f: string, s: string, p: string)
    requires f != "" && s != "" && IsWord(f) && IsWord(s) && IsWord(p) && |s| <= |p|
    ensures Normalise(f + "-" + s + "-" + p) == Success(f + "-" + s + "-" + p)
  {
    MatchThree(f, s, p);
  }

  /** `F-P` becomes `F-STD-P`: the package is captured as the speed, moves back
      to the package and leaves an empty speed behind. */
  lemma TwoFieldDefault(f: string, p: string)
    requires f != "" && p != "" && IsWord(f) && IsWord(p)
    ensures Normalise(f + "-" + p) == Success(f + "-" + DEFAULT_SPEED + "-" + p)
  {
    MatchTwo(f, p);
  }

  /** `F-P-S` with the middle field longer becomes `F-S-P`; an empty last field
      becomes 'STD'. */
  lemma SwapFields(f: string, s: string, p: string)
    requires f != "" && s != "" && IsWord(f) && IsWord(s) && IsWord(p) && |s| > |p|
    ensures Normalise(f + "-" + s + "-" + p)
      == Success(f + "-" + (if p == "" then DEFAULT_SPEED else p) + "-" + s)
  {
    MatchThree(f, s, p);
  }

  /** The Libero default part is its own normal form. */
  lemma DefaultFixed(part: string)
    requires part == LIBERO_PART
    ensures Normalise(part) == Success(part)
    ensures IsCanonical(part)
  {
    var f, s, p := "mpf100t", "1", "fcg484";
    assert part == f + "-" + s + "-" + p;
    assert IsWord(f) && IsWord(s) && IsWord(p);
    ThreeFieldFixed(f, s, p);
    NormaliseShape(part);
  }

  /** Normalising is not idempotent: `F-P` with a package of one or two
      characters comes back as `F-STD-P`, and normalising that again trades
      the now longer speed field with the package, giving `F-P-STD`. */
  lemma NotIdempotent(f: string, p: string)
    requires f != "" && p != "" && IsWord(f) && IsWord(p) && |p| < |DEFAULT_SPEED|
    ensures Normalise(f + "-" + p) == Success(f + "-" + DEFAULT_SPEED + "-" + p)
    ensures Normalise(f + "-" + DEFAULT_SPEED + "-" + p) == Success(f + "-" + p + "-" + DEFAULT_SPEED)
    ensures f + "-" + p + "-" + DEFAULT_SPEED != f + "-" + DEFAULT_SPEED + "-" + p
  {
    assert IsWord(DEFAULT_SPEED);
    TwoFieldDefault(f, p);
    SwapFields(f, DEFAULT_SPEED, p);
    OrderMatters(f, p, DEFAULT_SPEED);
  }

  /** Two fields of different lengths give different parts in either order. */
  lemma OrderMatters(f: string, p: string, s: string)
    requires |p| < |s| && IsWord(s)
    ensures f + "-" + p + "-" + s != f + "-" + s + "-" + p
  {
    var a := f + "-" + p + "-" + s;
    var b := f + "-" + s + "-" + p;
    assert a[|f| + 1 + |p|] == '-';
    assert b[|f| + 1 + |p|] == s[|p|];
  }
}
