/** The part-descriptor resolver of the open flow (`get_info`): a family from
    three ordered prefix tables, a device and a package from the dash fields. */
module PartInfo {
  import opened Wrappers
  import opened Errors
  import opened Strings

  /** Xilinx family prefixes, more specific ones first (first match wins). */
  const XILINX: seq<string> := [
    "xcup", "xcu", "xc7", "xc6s", "xc6v", "xc5v", "xc4v", "xc3sda",
    "xc3sa", "xc3se", "xc3s", "xc2vp", "xc2v", "xcve", "xcv"
  ]

  /** Device prefixes that select the iCE40 family. */
  const ICE40: seq<string> := [
    "lp384", "lp1k", "lp4k", "lp8k", "hx1k", "hx4k", "hx8k",
    "up3k", "up5k", "u1k", "u2k", "u4k"
  ]

  /** Device prefixes that select the ECP5 family. */
  const ECP5: seq<string> := [
    "12k", "25k", "45k", "85k", "um-25k", "um-45k", "um-85k",
    "um5g-25k", "um5g-45k", "um5g-85k"
  ]

  const PART_ERROR := "Part must be DEVICE-PACKAGE"

  /** The dictionary `get_info` returns; `family` is `None` when no table matched. */
  datatype Info = Info(family: Option<string>, device: string, package: string)

  /** The loop over a table that stops at the first prefix of `s`. */
  function FirstPrefix(s: string, table: seq<string>): (r: Option<string>)
    ensures r.Some? ==> r.value in table && StartsWith(s, r.value)
  {
    if table == [] then None
    else if StartsWith(s, table[0]) then Some(table[0])
    else FirstPrefix(s, table[1..])
  }

  /** `s.startswith(tuple(table))`. */
  predicate StartsWithAny(s: string, table: seq<string>) {
    exists p :: p in table && StartsWith(s, p)
  }

  /** The family of a lower-cased part: the Xilinx search, then the iCE40 and
      ECP5 tests, each of which overwrites what came before. The family is
      therefore a Xilinx table entry, 'ice40', 'ecp5' or nothing. */
  function Family(s: string): (r: Option<string>)
    ensures r == None || r.value in XILINX || r == Some("ice40") || r == Some("ecp5")
  {
    FirstPrefixFound(s, XILINX);
    var xilinx := FirstPrefix(s, XILINX);
    var afterIce40 := if StartsWithAny(s, ICE40) then Some("ice40") else xilinx;
    if StartsWithAny(s, ECP5) then Some("ecp5") else afterIce40
  }

  /** `get_info` as written: a refused part fails with the arity message, an
      accepted one carries the family of its lower-cased text. */
  function GetInfo(part: string): (r: Result<Info, Error>)
    ensures r.Failure? ==> r.error == MalformedPart(PART_ERROR)
    ensures r.Success? ==> r.value.family == Family(Lower(part))
  {
    var p := Lower(part);
    var family := Family(p);
    var aux := Split(p, "-");
    if |aux| == 2 || |aux| == 3 then
      var device := if |aux| == 2 then aux[0] else aux[0] + "-" + aux[1];
      var package := if |aux| == 2 then aux[1] else aux[2];
      // the icestorm rewrite for 4k devices, as written
      var rewrite := family == Some("lp4k") || family == Some("hx4k");
      var device' := if rewrite then Replace(device, "4", "8") else device;
      var package' := if rewrite then package + ":4k" else package;
      var package'' := if family == Some("ecp5") then Upper(package') else package';
      Success(Info(family, device', package''))
    else
      Failure(MalformedPart(PART_ERROR))
  }

  // ---------------------------------------------------------------------
  // The first-match search

  /** The search returns the entry at the least index that is a prefix. */
  lemma {:induction false} FirstPrefixIsLeast(s: string, table: seq<string>, i: nat)
    requires i < |table| && StartsWith(s, table[i])
    requires forall j :: 0 <= j < i ==> !StartsWith(s, table[j])
    ensures FirstPrefix(s, table) == Some(table[i])
  {
    if i > 0 {
      assert !StartsWith(s, table[0]);
      forall j | 0 <= j < i - 1 ensures !StartsWith(s, table[1..][j]) {
        assert table[1..][j] == table[j + 1];
      }
      FirstPrefixIsLeast(s, table[1..], i - 1);
    }
  }

  /** The search finds nothing exactly when no entry is a prefix, and what it
      finds is an entry of the table that is a prefix. */
  lemma {:induction false} FirstPrefixFound(s: string, table: seq<string>)
    ensures FirstPrefix(s, table).None? <==> forall p :: p in table ==> !StartsWith(s, p)
    ensures FirstPrefix(s, table).Some? ==>
      FirstPrefix(s, table).value in table && StartsWith(s, FirstPrefix(s, table).value)
  {
    if table != [] {
      FirstPrefixFound(s, table[1..]);
      assert forall p :: p in table ==> p == table[0] || p in table[1..];
    }
  }

  /** Every ECP5 and iCE40 prefix begins with something other than 'x',
      so a part that begins with 'x' matches neither table. */
  lemma NotIce40NorEcp5(s: string)
    requires |s| > 0 && s[0] == 'x'
    ensures !StartsWithAny(s, ICE40) && !StartsWithAny(s, ECP5)
  {
    forall p | p in ICE40 + ECP5 ensures !StartsWith(s, p) {
      assert p[0] != 'x';
    }
  }

  /** The Xilinx table is first-match-wins in list order. */
  lemma {:induction false} XilinxFirstMatch(part: string, i: nat)
    requires i < |XILINX| && StartsWith(Lower(part), XILINX[i])
    requires forall j :: 0 <= j < i ==> !StartsWith(Lower(part), XILINX[j])
    ensures Family(Lower(part)) == Some(XILINX[i])
  {
    var s := Lower(part);
    assert XILINX[i][0] == 'x';
    assert s[0] == XILINX[i][0];
    NotIce40NorEcp5(s);
    FirstPrefixIsLeast(s, XILINX, i);
  }

  /** A text that starts with `p` cannot start with a `q` that differs from
      `p` at a position both have. */
  lemma DifferAt(s: string, p: string, q: string, k: nat)
    requires StartsWith(s, p) && k < |p| && k < |q| && p[k] != q[k]
    ensures !StartsWith(s, q)
  {
    assert s[..|p|][k] == s[k];
    assert |q| <= |s| ==> s[..|q|][k] == s[k];
  }

  /** `xc3sda...` resolves to 'xc3sda', not to the shorter 'xc3s' after it. */
  lemma Xc3sdaBeforeXc3s(part: string)
    requires StartsWith(Lower(part), "xc3sda")
    ensures Family(Lower(part)) == Some("xc3sda")
  {
    forall j | 0 <= j < 7 ensures !StartsWith(Lower(part), XILINX[j]) {
      DifferAt(Lower(part), XILINX[7], XILINX[j], 2);
    }
    XilinxFirstMatch(part, 7);
  }

  /** `xcup...` resolves to 'xcup', not to 'xcu'. */
  lemma XcupBeforeXcu(part: string)
    requires StartsWith(Lower(part), "xcup")
    ensures Family(Lower(part)) == Some("xcup")
  {
    XilinxFirstMatch(part, 0);
  }

  /** `xc2vp...` resolves to 'xc2vp', not to 'xc2v'. */
  lemma Xc2vpBeforeXc2v(part: string)
    requires StartsWith(Lower(part), "xc2vp")
    ensures Family(Lower(part)) == Some("xc2vp")
  {
    forall j | 0 <= j < 11 ensures !StartsWith(Lower(part), XILINX[j]) {
      DifferAt(Lower(part), XILINX[11], XILINX[j], 2);
    }
    XilinxFirstMatch(part, 11);
  }

  /** Every iCE40 prefix begins with 'l', 'h' or 'u', and after a 'u' comes
      something other than 'm'. */
  lemma Ice40Heads(s: string)
    requires StartsWithAny(s, ICE40)
    ensures |s| >= 2 && (s[0] == 'l' || s[0] == 'h' || (s[0] == 'u' && s[1] != 'm'))
  {
    var q :| q in ICE40 && StartsWith(s, q);
    assert |q| >= 2 && (q[0] == 'l' || q[0] == 'h' || (q[0] == 'u' && q[1] != 'm'));
    assert s[..|q|][0] == s[0] && s[..|q|][1] == s[1];
  }

  /** Every ECP5 prefix begins with a digit or with 'um'. */
  lemma Ecp5Heads(s: string)
    ensures StartsWithAny(s, ECP5) ==> |s| >= 2 && (('0' <= s[0] <= '9') || (s[0] == 'u' && s[1] == 'm'))
  {
    if StartsWithAny(s, ECP5) {
      var q :| q in ECP5 && StartsWith(s, q);
      assert |q| >= 2 && (('0' <= q[0] <= '9') || (q[0] == 'u' && q[1] == 'm'));
      assert s[..|q|][0] == s[0] && s[..|q|][1] == s[1];
    }
  }

  /** The two-letter heads of the iCE40 and ECP5 prefixes are disjoint. */
  lemma Ice40NotEcp5(s: string)
    requires StartsWithAny(s, ICE40)
    ensures !StartsWithAny(s, ECP5)
  {
    Ice40Heads(s);
    Ecp5Heads(s);
  }

  /** Any iCE40 prefix gives the family 'ice40'. */
  lemma Ice40Family(part: string, q: string)
    requires q in ICE40 && StartsWith(Lower(part), q)
    ensures Family(Lower(part)) == Some("ice40")
  {
    Ice40NotEcp5(Lower(part));
  }

  /** Any ECP5 prefix gives the family 'ecp5'. */
  lemma Ecp5Family(part: string, q: string)
    requires q in ECP5 && StartsWith(Lower(part), q)
    ensures Family(Lower(part)) == Some("ecp5")
  {
  }

  /** With no prefix from any table the family stays `None`; that alone is
      not an error. */
  lemma {:induction false} NoFamily(part: string)
    requires forall p :: p in XILINX + ICE40 + ECP5 ==> !StartsWith(Lower(part), p)
    ensures Family(Lower(part)) == None
    ensures Count(part, '-') == 1 ==> GetInfo(part).Success? && GetInfo(part).value.family == None
  {
    var s := Lower(part);
    FirstPrefixFound(s, XILINX);
    assert !StartsWithAny(s, ICE40) by {
      forall p | p in ICE40 ensures !StartsWith(s, p) { assert p in XILINX + ICE40 + ECP5; }
    }
    assert !StartsWithAny(s, ECP5) by {
      forall p | p in ECP5 ensures !StartsWith(s, p) { assert p in XILINX + ICE40 + ECP5; }
    }
    SplitDashCount(s);
    LowerKeepsDashes(part);
  }

  // ---------------------------------------------------------------------
  // Split arity and post-processing

  /** The part parses exactly when it has one or two dashes. */
  lemma ArityDecides(part: string)
    ensures GetInfo(part).Failure? <==> Count(part, '-') != 1 && Count(part, '-') != 2
    ensures GetInfo(part).Failure? ==> GetInfo(part).error == MalformedPart(PART_ERROR)
  {
    SplitDashCount(Lower(part));
    LowerKeepsDashes(part);
  }

  /** The empty part splits into one field and is refused. */
  lemma EmptyPartRefused()
    ensures GetInfo("") == Failure(MalformedPart(PART_ERROR))
  {
    ArityDecides("");
  }

  /** The 4k rewrite never fires: the family is never 'lp4k' or 'hx4k', so
      the device and package are the split fields, the package upper-cased
      for ECP5 only. */
  lemma {:induction false} RewriteNeverFires(part: string)
    requires GetInfo(part).Success?
    ensures var info := GetInfo(part).value;
      var aux := Split(Lower(part), "-");
      && info.family != Some("lp4k") && info.family != Some("hx4k")
      && info.device == (if |aux| == 2 then aux[0] else aux[0] + "-" + aux[1])
      && info.package == (if info.family == Some("ecp5") then Upper(aux[|aux| - 1]) else aux[|aux| - 1])
  {
    NoRewriteFamily(Lower(part));
  }

  /** No family is 'lp4k' or 'hx4k': the Xilinx prefixes all begin with 'x'. */
  lemma NoRewriteFamily(s: string)
    ensures Family(s) != Some("lp4k") && Family(s) != Some("hx4k")
  {
    assert forall q :: q in XILINX ==> q[0] == 'x';
  }

  /** `D-P` gives device D and package P (lower-cased; upper-cased for ECP5). */
  lemma TwoFieldPart(d: string, p: string)
    requires '-' !in d && '-' !in p
    ensures var r := GetInfo(d + "-" + p);
      && r.Success?
      && r.value.device == Lower(d)
      && r.value.package == (if r.value.family == Some("ecp5") then Upper(Lower(p)) else Lower(p))
  {
    LowerConcat(d + "-", p);
    LowerConcat(d, "-");
    assert Lower("-") == "-";
    LowerWithoutDash(d);
    LowerWithoutDash(p);
    SplitAtDash(Lower(d), Lower(p));
    SplitWithoutDash(Lower(p));
    RewriteNeverFires(d + "-" + p);
  }

  /** `F-S-P` gives device `F-S` and package P. */
  lemma ThreeFieldPart(f: string, s: string, p: string)
    requires '-' !in f && '-' !in s && '-' !in p
    ensures var r := GetInfo(f + "-" + s + "-" + p);
      && r.Success?
      && r.value.device == Lower(f) + "-" + Lower(s)
      && r.value.package == (if r.value.family == Some("ecp5") then Upper(Lower(p)) else Lower(p))
  {
    var part := f + "-" + s + "-" + p;
    assert part == f + "-" + (s + "-" + p);
    LowerConcat(f + "-", s + "-" + p);
    LowerConcat(f, "-");
    LowerConcat(s + "-", p);
    LowerConcat(s, "-");
    assert Lower("-") == "-";
    LowerWithoutDash(f);
    LowerWithoutDash(s);
    LowerWithoutDash(p);
    assert Lower(part) == Lower(f) + "-" + (Lower(s) + "-" + Lower(p));
    SplitAtDash(Lower(f), Lower(s) + "-" + Lower(p));
    SplitAtDash(Lower(s), Lower(p));
    SplitWithoutDash(Lower(p));
    RewriteNeverFires(part);
  }

  /** The default part of the open flow. */
  lemma DefaultPartInfo(part: string)
    requires part == "hx8k-ct256"
    ensures GetInfo(part) == Success(Info(Some("ice40"), "hx8k", "ct256"))
    ensures GetInfoIntended(part) == GetInfo(part)
  {
    LowerIdentity("hx8k");
    LowerIdentity("ct256");
    assert part == "hx8k" + "-" + "ct256";
    TwoFieldPart("hx8k", "ct256");
    LowerIdentity(part);
    Ice40Family(part, "hx8k");
    assert part[2] == '8';
  }

  /** The 4k iCE40 devices, which the icestorm notes describe as the 8k die. */
  predicate Is4k(s: string) {
    StartsWith(s, "lp4k") || StartsWith(s, "hx4k")
  }

  /** A part `D-P` whose device is a 4k device is itself a 4k part. */
  lemma Is4kPart(d: string, p: string)
    requires Is4k(Lower(d))
    ensures Is4k(Lower(d + "-" + p))
  {
    LowerConcat(d, "-" + p);
    assert d + "-" + p == d + ("-" + p);
    var q := if StartsWith(Lower(d), "hx4k") then "hx4k" else "lp4k";
    PrefixExtends(Lower(d), Lower("-" + p), q);
  }

  /** Every 4k iCE40 part `D-P` keeps its device and package: as written, the
      rewrite to the 8k die with a ':4k' package never fires. */
  lemma Hx4kNotRewritten(d: string, p: string)
    requires '-' !in d && '-' !in p
    requires Is4k(Lower(d))
    ensures GetInfo(d + "-" + p) == Success(Info(Some("ice40"), Lower(d), Lower(p)))
  {
    TwoFieldPart(d, p);
    Is4kPart(d, p);
    var q := if StartsWith(Lower(d + "-" + p), "hx4k") then "hx4k" else "lp4k";
    Ice40Family(d + "-" + p, q);
  }

  /** `get_info` with the icestorm rewrite applied to the parts it is meant
      for: a 4k iCE40 part resolves to the 8k die, with ':4k' appended to its
      package. Every other part resolves as `GetInfo` does. */
  function GetInfoIntended(part: string): (r: Result<Info, Error>)
    ensures r.Failure? ==> r.error == MalformedPart(PART_ERROR)
    ensures r.Success? ==> r.value.family == Family(Lower(part))
  {
    match GetInfo(part)
    case Failure(e) => Failure(e)
    case Success(info) =>
      if Is4k(Lower(part)) then
        Success(Info(info.family, Replace(info.device, "4", "8"), info.package + ":4k"))
      else
        Success(info)
  }

  /** The corrected resolver: a 4k iCE40 part `D-P` is the 8k die `D` with
      every '4' made an '8', in the package `P:4k`. */
  lemma Hx4kRewritten(d: string, p: string)
    requires '-' !in d && '-' !in p
    requires Is4k(Lower(d))
    ensures GetInfoIntended(d + "-" + p) ==
      Success(Info(Some("ice40"), Replace(Lower(d), "4", "8"), Lower(p) + ":4k"))
  {
    Hx4kNotRewritten(d, p);
    Is4kPart(d, p);
  }

  /** The input that shows the dead rewrite: as written, 'hx4k-ct256'
      resolves to the device 'hx4k' in the package 'ct256'. */
  lemma Hx4kExample(part: string)
    requires part == "hx4k-ct256"
    ensures GetInfo(part) == Success(Info(Some("ice40"), "hx4k", "ct256"))
  {
    Hx4kFields();
    Hx4kNotRewritten("hx4k", "ct256");
  }

  /** As intended, 'hx4k-ct256' resolves to the 8k die 'hx8k' in the
      package 'ct256:4k'. */
  lemma Hx4kExampleIntended(part: string)
    requires part == "hx4k-ct256"
    ensures GetInfoIntended(part) == Success(Info(Some("ice40"), "hx8k", "ct256:4k"))
  {
    Hx4kFields();
    Hx4kRewritten("hx4k", "ct256");
    Hx4kRewrittenFields();
  }

  lemma Hx4kRewrittenFields()
    ensures Replace("hx4k", "4", "8") == "hx8k"
    ensures "ct256" + ":4k" == "ct256:4k"
  {
    assert Replace("k", "4", "8") == "k";
    assert Replace("4k", "4", "8") == "8k";
  }

  lemma Hx4kFields()
    ensures Lower("hx4k") == "hx4k" && Lower("ct256") == "ct256"
    ensures "hx4k-ct256" == "hx4k" + "-" + "ct256"
    ensures Is4k("hx4k")
  {
    LowerIdentity("hx4k");
    LowerIdentity("ct256");
    assert StartsWith("hx4k", "hx4k");
  }

  /** The corrected resolver refuses exactly the parts `get_info` refuses,
      with the same error, and agrees with it on every part that is not 4k. */
  lemma IntendedAgrees(part: string)
    ensures GetInfoIntended(part).Failure? <==> GetInfo(part).Failure?
    ensures GetInfoIntended(part).Failure? ==> GetInfoIntended(part) == GetInfo(part)
    ensures !Is4k(Lower(part)) ==> GetInfoIntended(part) == GetInfo(part)
  {
  }

  /** A prefix of a text is a prefix of any extension of it. */
  lemma PrefixExtends(a: string, b: string, q: string)
    requires StartsWith(a, q)
    ensures StartsWith(a + b, q)
  {
    assert (a + b)[..|q|] == a[..|q|];
  }

  /** An ECP5 part has its package upper-cased. */
  lemma Ecp5PackageUpper(part: string)
    requires part == "25k-csfbga285"
    ensures GetInfo(part) == Success(Info(Some("ecp5"), "25k", "CSFBGA285"))
  {
    LowerIdentity("25k");
    LowerIdentity("csfbga285");
    assert part == "25k" + "-" + "csfbga285";
    TwoFieldPart("25k", "csfbga285");
    LowerIdentity(part);
    Ecp5Family(part, "25k");
    UpperPackage("csfbga285");
  }

  lemma UpperPackage(p: string)
    requires p == "csfbga285"
    ensures Upper(p) == "CSFBGA285"
  {
    assert |Upper(p)| == 9;
    forall i | 0 <= i < 9 ensures Upper(p)[i] == "CSFBGA285"[i] {
      assert Upper(p)[i] == UpperChar(p[i]);
    }
  }

  lemma LowerIdentity(s: string)
    requires forall i :: 0 <= i < |s| ==> !('A' <= s[i] <= 'Z')
    ensures Lower(s) == s
  {
  }
}
