/** The placeholder substitution of `Tool._create_script`: a chain of
    `replace` calls, one per `#NAME#` token, applied to the template text.
    A template is read as pieces, literal text and named slots, to state what
    the chain does to it. */
module Template {
  import opened Wrappers
  import opened Strings

  datatype Piece = Lit(text: string) | Slot(name: string)

  predicate IsNameChar(c: char) {
    'A' <= c <= 'Z' || c == '_'
  }

  /** A placeholder name: upper-case letters and underscores. */
  predicate IsName(n: string) {
    n != [] && forall k :: 0 <= k < |n| ==> IsNameChar(n[k])
  }

  function Token(name: string): (t: string)
    ensures |t| == |name| + 2 && t[0] == '#' && t[|t| - 1] == '#'
  {
    "#" + name + "#"
  }

  function PieceText(p: Piece): string {
    match p
    case Lit(t) => t
    case Slot(n) => Token(n)
  }

  function Flatten(ps: seq<Piece>): string
    decreases |ps|
  {
    if ps == [] then "" else PieceText(ps[0]) + Flatten(ps[1..])
  }

  /** Holds a character that cannot be part of a name. */
  predicate HasBreak(t: string) {
    exists k :: 0 <= k < |t| && !IsNameChar(t[k])
  }

  /** Literal text holds no '#', every slot has a name, and every slot but the
      last is followed by literal text with a character that cannot belong to
      a name, so that no token can be read across two slots. */
  predicate WellFormed(ps: seq<Piece>) {
    && (forall i :: 0 <= i < |ps| && ps[i].Lit? ==> '#' !in ps[i].text)
    && (forall i :: 0 <= i < |ps| && ps[i].Slot? ==> IsName(ps[i].name))
    && (forall i :: 0 <= i < |ps| - 1 && ps[i].Slot? ==> ps[i + 1].Lit? && HasBreak(ps[i + 1].text))
  }

  /** The replace chain: each binding's token replaced by its value, in order.
      A text without a '#' holds no token and passes through unchanged. */
  function Render(text: string, bindings: seq<(string, string)>): (r: string)
    ensures '#' !in text ==> r == text
    decreases |bindings|
  {
    if bindings == [] then text
    else
      PlainUnchanged(text, Token(bindings[0].0), bindings[0].1);
      Render(Replace(text, Token(bindings[0].0), bindings[0].1), bindings[1..])
  }

  /** One `replace` of a token leaves a text without a '#' unchanged. */
  lemma PlainUnchanged(text: string, pat: string, rep: string)
    requires pat != [] && pat[0] == '#'
    ensures '#' !in text ==> Replace(text, pat, rep) == text
  {
    if '#' !in text {
      SkipPlain(text, "", pat, rep);
      assert text + "" == text;
    }
  }

  /** The value of the first binding for `name`. */
  function Lookup(bindings: seq<(string, string)>, name: string): Option<string>
    decreases |bindings|
  {
    if bindings == [] then None
    else if bindings[0].0 == name then Some(bindings[0].1)
    else Lookup(bindings[1..], name)
  }

  /** Every slot with a binding replaced by the first binding's value, every
      other piece kept. */
  function Fill(ps: seq<Piece>, bindings: seq<(string, string)>): seq<Piece> {
    seq(|ps|, i requires 0 <= i < |ps| =>
      if ps[i].Slot? && Lookup(bindings, ps[i].name).Some?
      then Lit(Lookup(bindings, ps[i].name).value) else ps[i])
  }

  /** One `replace` call on pieces. */
  function Subst(ps: seq<Piece>, name: string, value: string): seq<Piece> {
    seq(|ps|, i requires 0 <= i < |ps| => if ps[i] == Slot(name) then Lit(value) else ps[i])
  }

  // ---------------------------------------------------------------------
  // One replace over pieces

  /** `replace` of a token copies text without a '#' unchanged. */
  lemma {:induction false} SkipPlain(a: string, b: string, pat: string, rep: string)
    requires pat != [] && pat[0] == '#' && '#' !in a
    ensures Replace(a + b, pat, rep) == a + Replace(b, pat, rep)
    decreases |a|
  {
    if a != [] {
      var s := a + b;
      if |s| >= |pat| {
        assert a[0] in a;
        assert forall c :: c in a[1..] ==> c in a;
        assert s[..|pat|][0] == a[0];
        assert !StartsWith(s, pat);
        assert s[1..] == a[1..] + b;
        SkipPlain(a[1..], b, pat, rep);
        var r := Replace(b, pat, rep);
        assert Replace(s, pat, rep) == [a[0]] + (a[1..] + r);
        assert [a[0]] + (a[1..] + r) == a + r;
      } else {
        assert |b| < |pat|;
      }
    } else {
      assert a + b == b;
    }
  }

  /** A slot's token does not start with another name's token. */
  lemma SlotMismatch(m: string, n: string, rest: string)
    requires IsName(m) && IsName(n) && m != n
    ensures !StartsWith(Token(m) + rest, Token(n))
  {
    var s := Token(m) + rest;
    var d: nat;
    if |n| < |m| {
      d := |n| + 1;
      assert s[d] == m[|n|];
    } else if |n| > |m| {
      d := |m| + 1;
      assert Token(n)[d] == n[|m|];
    } else {
      var k :| 0 <= k < |m| && m[k] != n[k];
      d := k + 1;
      assert s[d] == m[k] && Token(n)[d] == n[k];
    }
    assert d < |Token(n)| && d < |s| && s[d] != Token(n)[d];
    if |Token(n)| <= |s| {
      assert s[..|Token(n)|][d] == s[d];
    }
  }

  /** The closing '#' of a slot starts no token when literal text with a
      break follows it. */
  lemma ClosingHash(ps: seq<Piece>, n: string, v: string)
    requires WellFormed(ps) && IsName(n)
    requires ps == [] || (ps[0].Lit? && HasBreak(ps[0].text))
    ensures Replace("#" + Flatten(ps), Token(n), v) == "#" + Replace(Flatten(ps), Token(n), v)
  {
    var r := Flatten(ps);
    var s := "#" + r;
    var pat := Token(n);
    if |s| >= |pat| {
      var t := ps[0].text;
      assert r == t + Flatten(ps[1..]);
      assert '#' !in t;
      var k :| 0 <= k < |t| && !IsNameChar(t[k]);
      var d: nat;
      if k < |n| {
        d := k + 1;
        assert s[d] == t[k] && pat[d] == n[k];
      } else {
        d := |n| + 1;
        assert s[d] == t[|n|] && pat[d] == '#';
        assert t[|n|] in t;
      }
      assert s[..|pat|][d] == s[d] && s[d] != pat[d];
      assert s[1..] == r;
    }
  }

  lemma WellFormedTail(ps: seq<Piece>)
    requires ps != [] && WellFormed(ps)
    ensures WellFormed(ps[1..])
  {
    var rest := ps[1..];
    forall i | 0 <= i < |rest| - 1 && rest[i].Slot?
      ensures rest[i + 1].Lit? && HasBreak(rest[i + 1].text)
    {
      assert rest[i] == ps[i + 1] && rest[i + 1] == ps[i + 2];
    }
  }

  lemma NameNoHash(m: string)
    requires IsName(m)
    ensures '#' !in m
  {
    forall k | 0 <= k < |m| ensures m[k] != '#' {
      assert IsNameChar(m[k]);
    }
  }

  /** `replace` moves one character on where no match starts. */
  lemma SkipOne(c: char, x: string, pat: string, rep: string)
    requires pat != [] && !StartsWith([c] + x, pat)
    ensures Replace([c] + x, pat, rep) == [c] + Replace(x, pat, rep)
  {
    var s := [c] + x;
    if |s| >= |pat| {
      assert s[1..] == x;
    } else {
      assert |x| < |pat|;
    }
  }

  /** No token of another name starts at a slot's opening '#'. */
  lemma OpeningHash(m: string, r: string, n: string, v: string)
    requires IsName(n) && IsName(m) && m != n
    ensures Replace(Token(m) + r, Token(n), v) == "#" + Replace(m + ("#" + r), Token(n), v)
  {
    var tail := m + ("#" + r);
    assert Token(m) + r == ['#'] + tail;
    SlotMismatch(m, n, r);
    SkipOne('#', tail, Token(n), v);
  }

  /** `replace` copies the token of another name when no token starts at its
      closing '#'. */
  lemma TokenSkip(m: string, r: string, n: string, v: string)
    requires IsName(n) && IsName(m) && m != n
    requires Replace("#" + r, Token(n), v) == "#" + Replace(r, Token(n), v)
    ensures Replace(Token(m) + r, Token(n), v) == Token(m) + Replace(r, Token(n), v)
  {
    OpeningHash(m, r, n, v);
    NameNoHash(m);
    SkipPlain(m, "#" + r, Token(n), v);
    TokenSplit(m, Replace(r, Token(n), v));
  }

  lemma TokenSplit(m: string, r: string)
    ensures "#" + (m + ("#" + r)) == Token(m) + r
  {
  }

  /** One `replace` of a token over the first piece and the text after it. */
  lemma HeadStep(p: Piece, rest: seq<Piece>, n: string, v: string)
    requires WellFormed(rest) && IsName(n)
    requires p.Lit? ==> '#' !in p.text
    requires p.Slot? ==> IsName(p.name) && (rest == [] || (rest[0].Lit? && HasBreak(rest[0].text)))
    ensures Replace(PieceText(p) + Flatten(rest), Token(n), v)
      == PieceText(if p == Slot(n) then Lit(v) else p) + Replace(Flatten(rest), Token(n), v)
  {
    var r := Flatten(rest);
    match p
    case Lit(t) =>
      SkipPlain(t, r, Token(n), v);
    case Slot(m) =>
      if m == n {
        var s := Token(m) + r;
        assert StartsWith(s, Token(n));
        assert s[|Token(n)|..] == r;
      } else {
        ClosingHash(rest, n, v);
        TokenSkip(m, r, n, v);
      }
  }

  /** One `replace` of a token with a value free of '#' replaces exactly the
      slots of that name. */
  lemma {:induction false} SubstStep(ps: seq<Piece>, n: string, v: string)
    requires WellFormed(ps) && IsName(n) && '#' !in v
    ensures Replace(Flatten(ps), Token(n), v) == Flatten(Subst(ps, n, v))
    decreases |ps|
  {
    if ps != [] {
      var rest := ps[1..];
      WellFormedTail(ps);
      SubstStep(rest, n, v);
      var out := Subst(ps, n, v);
      assert out[1..] == Subst(rest, n, v);
      assert Flatten(out) == PieceText(out[0]) + Flatten(Subst(rest, n, v));
      HeadStep(ps[0], rest, n, v);
    }
  }

  /** Substituting a value free of '#' keeps a template well formed. */
  lemma SubstWellFormed(ps: seq<Piece>, n: string, v: string)
    requires WellFormed(ps) && '#' !in v
    ensures WellFormed(Subst(ps, n, v))
  {
    var out := Subst(ps, n, v);
    forall i | 0 <= i < |out| - 1 && out[i].Slot?
      ensures out[i + 1].Lit? && HasBreak(out[i + 1].text)
    {
      assert ps[i].Slot?;
    }
  }

  // ---------------------------------------------------------------------
  // The whole chain

  lemma FillAfterSubst(ps: seq<Piece>, bindings: seq<(string, string)>)
    requires bindings != []
    ensures Fill(Subst(ps, bindings[0].0, bindings[0].1), bindings[1..]) == Fill(ps, bindings)
  {
  }

  /** The replace chain on a well-formed template puts each binding's value,
      free of '#', in place of every slot of its name, the first binding for a
      name winning, and leaves all other text, unbound slots included, as it
      was. */
  lemma {:induction false} RenderFillsSlots(ps: seq<Piece>, bindings: seq<(string, string)>)
    requires WellFormed(ps)
    requires forall b :: b in bindings ==> IsName(b.0) && '#' !in b.1
    ensures Render(Flatten(ps), bindings) == Flatten(Fill(ps, bindings))
    decreases |bindings|
  {
    if bindings == [] {
      assert Fill(ps, bindings) == ps;
    } else {
      var b := bindings[0];
      assert b in bindings;
      SubstStep(ps, b.0, b.1);
      SubstWellFormed(ps, b.0, b.1);
      assert forall c :: c in bindings[1..] ==> c in bindings;
      RenderFillsSlots(Subst(ps, b.0, b.1), bindings[1..]);
      FillAfterSubst(ps, bindings);
    }
  }

  /** With distinct names, the binding at `k` is the one found for its name. */
  lemma {:induction false} LookupIndex(bindings: seq<(string, string)>, k: nat)
    requires k < |bindings|
    requires forall j :: 0 <= j < k ==> bindings[j].0 != bindings[k].0
    ensures Lookup(bindings, bindings[k].0) == Some(bindings[k].1)
    decreases k
  {
    if k > 0 {
      assert bindings[0].0 != bindings[k].0;
      var rest := bindings[1..];
      assert rest[k - 1] == bindings[k];
      assert forall j :: 0 <= j < k - 1 ==> rest[j] == bindings[j + 1];
      LookupIndex(rest, k - 1);
    }
  }

  /** A name no binding has is found nowhere. */
  lemma {:induction false} LookupAbsent(bindings: seq<(string, string)>, name: string)
    requires forall k :: 0 <= k < |bindings| ==> bindings[k].0 != name
    ensures Lookup(bindings, name) == None
    decreases |bindings|
  {
    if bindings != [] {
      assert bindings[0].0 != name;
      var rest := bindings[1..];
      assert forall k :: 0 <= k < |rest| ==> rest[k] == bindings[k + 1];
      LookupAbsent(rest, name);
    }
  }

  /** With distinct binding names, `Fill` puts binding `k`'s value in place of
      every slot of its name and keeps every literal and every slot whose
      name has no binding. */
  lemma FillSlots(ps: seq<Piece>, bindings: seq<(string, string)>)
    requires forall j, k :: 0 <= j < k < |bindings| ==> bindings[j].0 != bindings[k].0
    ensures |Fill(ps, bindings)| == |ps|
    ensures forall i, k :: 0 <= i < |ps| && 0 <= k < |bindings| && ps[i] == Slot(bindings[k].0) ==>
      Fill(ps, bindings)[i] == Lit(bindings[k].1)
    ensures forall i :: 0 <= i < |ps| && (ps[i].Lit? || forall k :: 0 <= k < |bindings| ==> bindings[k].0 != ps[i].name) ==>
      Fill(ps, bindings)[i] == ps[i]
  {
    forall k | 0 <= k < |bindings|
      ensures Lookup(bindings, bindings[k].0) == Some(bindings[k].1)
    {
      LookupIndex(bindings, k);
    }
    forall i | 0 <= i < |ps| && ps[i].Slot? && forall k :: 0 <= k < |bindings| ==> bindings[k].0 != ps[i].name
      ensures Lookup(bindings, ps[i].name) == None
    {
      LookupAbsent(bindings, ps[i].name);
    }
  }
}
