/**
 * The dependency check run before the servers start: the requirement lines
 * are parsed into (package name, full specifier) pairs, each package is
 * classified as installed or missing, and missing ones are installed when
 * automatic installation is on. Whether a package is importable and whether
 * an installation succeeds are oracles.
 */
module CheckDependencies {
  import opened Wrappers
  import opened PyText

  /* ---------- package names ---------- */

  /** `s.split(sep)[0]`: the part of `s` before the first occurrence of `sep`. */
  function Before(s: string, sep: string): string
    decreases |s|
  {
    if StartsWith(s, sep) || s == [] then "" else [s[0]] + Before(s[1..], sep)
  }

  /** The cut `split('>=')[0].split('==')[0].split('<')[0].split('>')[0]`, before trimming. */
  function Cut(line: string): string {
    Before(Before(Before(Before(line, ">="), "=="), "<"), ">")
  }

  /** The package name of a (stripped) requirement line. */
  function PackageName(line: string): string {
    Strip(Cut(line))
  }

  /** One of the four version operators begins at position `j` of `s`. */
  predicate SeparatorAt(s: string, j: nat)
    requires j <= |s|
  {
    StartsWith(s[j..], ">=") || StartsWith(s[j..], "==") || StartsWith(s[j..], "<") || StartsWith(s[j..], ">")
  }

  /** A reference for the cut: the position of the first version operator, or the length. */
  function FirstSeparator(s: string): (k: nat)
    ensures k <= |s|
    decreases |s|
  {
    if s == [] || SeparatorAt(s, 0) then 0 else 1 + FirstSeparator(s[1..])
  }

  /** `FirstSeparator` is the first position at which an operator begins. */
  lemma {:induction false} FirstSeparatorIsFirst(s: string)
    ensures var k := FirstSeparator(s);
      && (k == |s| || SeparatorAt(s, k))
      && forall j :: 0 <= j < k ==> !SeparatorAt(s, j)
    decreases |s|
  {
    if s != [] && !SeparatorAt(s, 0) {
      var t := s[1..];
      FirstSeparatorIsFirst(t);
      forall j | 1 <= j <= |s| ensures SeparatorAt(s, j) == SeparatorAt(t, j - 1) {
        assert s[j..] == t[j - 1..];
      }
    }
  }

  /** `split(sep)[0]` is a prefix of the string. */
  lemma {:induction false} BeforeIsPrefix(s: string, sep: string)
    ensures var r := Before(s, sep); |r| <= |s| && r == s[..|r|]
    decreases |s|
  {
    if !(StartsWith(s, sep) || s == []) {
      BeforeIsPrefix(s[1..], sep);
    }
  }

  /** A prefix test that holds on a prefix of `s` holds on `s`. */
  lemma StartsWithPrefix(s: string, q: string, p: string)
    requires |q| <= |s| && q == s[..|q|] && StartsWith(q, p)
    ensures StartsWith(s, p)
  {
    assert s[..|p|] == q[..|p|];
  }

  /** No operator begins at the front: the cut keeps the first character. */
  lemma CutKeepsHead(s: string)
    requires s != [] && !SeparatorAt(s, 0)
    ensures Cut(s) == [s[0]] + Cut(s[1..])
  {
    assert s[0..] == s;
    var t := s[1..];
    var q1, x1 := Before(s, ">="), Before(t, ">=");
    assert q1 == [s[0]] + x1;
    BeforeIsPrefix(s, ">=");
    var q2, x2 := Before(q1, "=="), Before(x1, "==");
    if StartsWith(q1, "==") {
      StartsWithPrefix(s, q1, "==");
    }
    assert q2 == [s[0]] + x2 by {
      assert q1[1..] == x1;
    }
    BeforeIsPrefix(q1, "==");
    var q3, x3 := Before(q2, "<"), Before(x2, "<");
    if StartsWith(q2, "<") {
      StartsWithPrefix(s, q2, "<");
    }
    assert q3 == [s[0]] + x3 by {
      assert q2[1..] == x2;
    }
    BeforeIsPrefix(q2, "<");
    if StartsWith(q3, ">") {
      StartsWithPrefix(s, q3, ">");
    }
    assert Before(q3, ">") == [s[0]] + Before(x3, ">") by {
      assert q3[1..] == x3;
    }
  }

  /** An operator at the front leaves nothing of the line. */
  lemma CutAtSeparator(s: string)
    requires s != [] && SeparatorAt(s, 0)
    ensures Cut(s) == ""
  {
    assert s[0..] == s;
    var q1 := Before(s, ">=");
    if StartsWith(s, ">=") {
      assert q1 == "";
    } else if StartsWith(s, "==") {
      var t := s[1..];
      assert t != [] && t[0] == '=' && !StartsWith(t, ">=");
      assert q1 == [s[0]] + Before(t, ">=");
      assert Before(t, ">=") == [t[0]] + Before(t[1..], ">=");
      assert StartsWith(q1, "==");
    } else {
      assert q1 == [s[0]] + Before(s[1..], ">=");
      var q2 := Before(q1, "==");
      assert q2 == [s[0]] + Before(q1[1..], "==");
      if s[0] == '<' {
        assert StartsWith(q2, "<");
      } else {
        var q3 := Before(q2, "<");
        assert q3 == [s[0]] + Before(q2[1..], "<");
        assert StartsWith(q3, ">");
      }
    }
  }

  /** The chain of splits cuts the line exactly at its first version operator. */
  lemma {:induction false} CutIsFirstSeparator(s: string)
    ensures Cut(s) == s[..FirstSeparator(s)]
    decreases |s|
  {
    if s == [] {
    } else if SeparatorAt(s, 0) {
      CutAtSeparator(s);
    } else {
      CutKeepsHead(s);
      CutIsFirstSeparator(s[1..]);
      assert s[..FirstSeparator(s)] == [s[0]] + s[1..][..FirstSeparator(s[1..])];
    }
  }

  /** `strip` returns a contiguous piece of its argument. */
  lemma StripIsInfix(s: string) returns (a: nat)
    ensures a + |Strip(s)| <= |s|
    ensures forall i :: 0 <= i < |Strip(s)| ==> Strip(s)[i] == s[a + i]
  {
    var l := LStripBy(s, None);
    a := |s| - |l|;
    assert l == s[a..];
    assert Strip(s) == l[..|Strip(s)|];
  }

  /** Before the first operator no character is `<` or `>` and no two adjacent ones are `==`. */
  lemma {:induction false} BeforeFirstSeparator(s: string, j: nat)
    requires j < FirstSeparator(s)
    ensures s[j] != '<' && s[j] != '>'
    ensures j + 1 < |s| ==> !(s[j] == '=' && s[j + 1] == '=')
    decreases j
  {
    if j == 0 {
      assert s[0..] == s;
      assert s[..1] == [s[0]];
      assert |s| > 1 ==> s[..2] == [s[0], s[1]];
    } else {
      BeforeFirstSeparator(s[1..], j - 1);
    }
  }

  /** An occurrence of `==` is two adjacent `=` characters. */
  lemma EqualsAt(s: string, j: nat)
    requires j + 2 <= |s| && s[j..j + 2] == "=="
    ensures s[j] == '=' && s[j + 1] == '='
  {
    assert s[j..j + 2][0] == s[j] && s[j..j + 2][1] == s[j + 1];
  }

  /** The package name is the trimmed prefix of the line before its first version operator. */
  lemma PackageNameIsCut(line: string)
    ensures var k := FirstSeparator(line);
      && PackageName(line) == Strip(line[..k])
      && (k == |line| || SeparatorAt(line, k))
      && forall j :: 0 <= j < k ==> !SeparatorAt(line, j)
  {
    CutIsFirstSeparator(line);
    FirstSeparatorIsFirst(line);
  }

  /** A piece of the line before its first operator contains none of `<`, `>` and `==`. */
  lemma NoOperatorIn(line: string, n: string, a: nat)
    requires a + |n| <= FirstSeparator(line)
    requires forall i :: 0 <= i < |n| ==> n[i] == line[a + i]
    ensures forall i :: 0 <= i < |n| ==> n[i] != '<' && n[i] != '>'
    ensures !Contains(n, "==")
  {
    forall i | 0 <= i < |n| ensures n[i] != '<' && n[i] != '>' {
      BeforeFirstSeparator(line, a + i);
    }
    if Contains(n, "==") {
      var j := ContainsWitness(n, "==");
      EqualsAt(n, j);
      BeforeFirstSeparator(line, a + j);
      assert false;
    }
  }

  /** The package name contains none of `<`, `>` and `==`. */
  lemma PackageNameHasNoOperator(line: string)
    ensures var n := PackageName(line);
      && (forall i :: 0 <= i < |n| ==> n[i] != '<' && n[i] != '>')
      && !Contains(n, "==")
  {
    var k := FirstSeparator(line);
    var p := line[..k];
    assert PackageName(line) == Strip(p) by {
      CutIsFirstSeparator(line);
    }
    var a := StripIsInfix(p);
    assert forall x :: 0 <= x < |p| ==> p[x] == line[x];
    NoOperatorIn(line, Strip(p), a);
  }

  /* ---------- requirement lines ---------- */

  /** A parsed requirement: the package name and the full line used to install it. */
  datatype Requirement = Requirement(name: string, spec: string)

  /** A stripped line that names a requirement: neither blank nor a comment. */
  predicate IsRequirementLine(t: string) {
    t != "" && !StartsWith(t, "#")
  }

  /** What one line of the file contributes. */
  function LineRequirement(line: string): seq<Requirement> {
    var t := Strip(line);
    if IsRequirementLine(t) then [Requirement(PackageName(t), t)] else []
  }

  /** `required_packages` after the parsing loop over the lines of the file. */
  function Requirements(lines: seq<string>): seq<Requirement> {
    if lines == [] then [] else Requirements(lines[..|lines| - 1]) + LineRequirement(lines[|lines| - 1])
  }

  /** The requirements of consecutive pieces of a file are those of each piece. */
  lemma {:induction false} RequirementsAppend(a: seq<string>, b: seq<string>)
    ensures Requirements(a + b) == Requirements(a) + Requirements(b)
    decreases |b|
  {
    if b == [] {
      assert a + b == a;
    } else {
      var c := b[..|b| - 1];
      assert (a + b)[..|a + b| - 1] == a + c && (a + b)[|a + b| - 1] == b[|b| - 1];
      RequirementsAppend(a, c);
    }
  }

  /** A blank or comment line contributes no requirement wherever it stands. */
  lemma SkippedLine(a: seq<string>, line: string, b: seq<string>)
    requires !IsRequirementLine(Strip(line))
    ensures Requirements(a + [line] + b) == Requirements(a + b)
  {
    assert Requirements([line]) == [] by {
      assert [line][..0] == [];
    }
    assert Requirements(a + [line]) == Requirements(a) by {
      RequirementsAppend(a, [line]);
    }
    RequirementsAppend(a + [line], b);
    RequirementsAppend(a, b);
  }

  /**
   * Every requirement comes from a line of the file: its spec is the
   * stripped line and its name the package name of that spec; and every
   * non-blank, non-comment line gives one.
   */
  lemma {:induction false} RequirementsFromLines(lines: seq<string>)
    ensures forall r :: r in Requirements(lines) ==>
      IsRequirementLine(r.spec) && r.name == PackageName(r.spec) && exists l :: l in lines && Strip(l) == r.spec
    ensures forall l :: l in lines && IsRequirementLine(Strip(l)) ==>
      Requirement(PackageName(Strip(l)), Strip(l)) in Requirements(lines)
    ensures |Requirements(lines)| <= |lines|
  {
    if lines != [] {
      var init, last := lines[..|lines| - 1], lines[|lines| - 1];
      RequirementsFromLines(init);
      assert lines == init + [last];
      forall r | r in Requirements(lines)
        ensures exists l :: l in lines && Strip(l) == r.spec
      {
        if r in Requirements(init) {
          var l :| l in init && Strip(l) == r.spec;
          assert l in lines;
        } else {
          assert last in lines;
        }
      }
    }
  }

  /** One more line of the file adds what that line contributes. */
  lemma RequirementsSnoc(lines: seq<string>, i: nat)
    requires i < |lines|
    ensures Requirements(lines[..i + 1]) == Requirements(lines[..i]) + LineRequirement(lines[i])
  {
    assert lines[..i + 1][..i] == lines[..i];
  }

  /** The parsing loop of `check_and_install_dependencies`. */
  method ParseRequirements(lines: seq<string>) returns (required: seq<Requirement>)
    ensures required == Requirements(lines)
  {
    required := [];
    var i := 0;
    while i < |lines|
      invariant 0 <= i <= |lines|
      invariant required == Requirements(lines[..i])
    {
      var line := Strip(lines[i]);
      RequirementsSnoc(lines, i);
      if line != "" && !StartsWith(line, "#") {
        required := required + [Requirement(PackageName(line), line)];
      } else {
        assert LineRequirement(lines[i]) == [];
      }
      i := i + 1;
    }
    assert lines[..i] == lines;
  }

  /* ---------- installed / missing ---------- */

  /** `is_package_installed(name)` and `install_package(spec)`, as oracles. */
  type Probe = string -> bool

  /** `installed_packages`: the names of the requirements that are installed. */
  function InstalledNames(reqs: seq<Requirement>, installed: Probe): seq<string> {
    if reqs == [] then [] else
    var r := reqs[|reqs| - 1];
    InstalledNames(reqs[..|reqs| - 1], installed) + (if installed(r.name) then [r.name] else [])
  }

  /** `missing_packages`: the full specs of the requirements that are not installed. */
  function MissingSpecs(reqs: seq<Requirement>, installed: Probe): seq<string> {
    if reqs == [] then [] else
    var r := reqs[|reqs| - 1];
    MissingSpecs(reqs[..|reqs| - 1], installed) + (if installed(r.name) then [] else [r.spec])
  }

  /**
   * Every requirement lands in exactly one of the two lists: the installed
   * names and the missing specs together are as many as the requirements,
   * and each list holds exactly what its test selects.
   */
  lemma {:induction false} Partitioned(reqs: seq<Requirement>, installed: Probe)
    ensures |InstalledNames(reqs, installed)| + |MissingSpecs(reqs, installed)| == |reqs|
    ensures forall x :: x in InstalledNames(reqs, installed) <==>
      exists r :: r in reqs && installed(r.name) && r.name == x
    ensures forall x :: x in MissingSpecs(reqs, installed) <==>
      exists r :: r in reqs && !installed(r.name) && r.spec == x
  {
    if reqs != [] {
      var init, last := reqs[..|reqs| - 1], reqs[|reqs| - 1];
      Partitioned(init, installed);
      assert reqs == init + [last];
      forall x | x in InstalledNames(reqs, installed)
        ensures exists r :: r in reqs && installed(r.name) && r.name == x
      {
        if x in InstalledNames(init, installed) {
          var r :| r in init && installed(r.name) && r.name == x;
          assert r in reqs;
        } else {
          assert last in reqs;
        }
      }
      forall x | x in MissingSpecs(reqs, installed)
        ensures exists r :: r in reqs && !installed(r.name) && r.spec == x
      {
        if x in MissingSpecs(init, installed) {
          var r :| r in init && !installed(r.name) && r.spec == x;
          assert r in reqs;
        } else {
          assert last in reqs;
        }
      }
      forall x | exists r :: r in reqs && installed(r.name) && r.name == x
        ensures x in InstalledNames(reqs, installed)
      {
        var r :| r in reqs && installed(r.name) && r.name == x;
        if r in init {
        } else {
          assert r == last;
        }
      }
      forall x | exists r :: r in reqs && !installed(r.name) && r.spec == x
        ensures x in MissingSpecs(reqs, installed)
      {
        var r :| r in reqs && !installed(r.name) && r.spec == x;
        if r in init {
        } else {
          assert r == last;
        }
      }
    }
  }

  /** The classification loop. */
  method Classify(reqs: seq<Requirement>, installed: Probe) returns (installedPackages: seq<string>, missingPackages: seq<string>)
    ensures installedPackages == InstalledNames(reqs, installed)
    ensures missingPackages == MissingSpecs(reqs, installed)
  {
    installedPackages, missingPackages := [], [];
    var i := 0;
    while i < |reqs|
      invariant 0 <= i <= |reqs|
      invariant installedPackages == InstalledNames(reqs[..i], installed)
      invariant missingPackages == MissingSpecs(reqs[..i], installed)
    {
      var r := reqs[i];
      if installed(r.name) {
        installedPackages := installedPackages + [r.name];
      } else {
        missingPackages := missingPackages + [r.spec];
      }
      assert reqs[..i + 1][..i] == reqs[..i];
      i := i + 1;
    }
    assert reqs[..i] == reqs;
  }

  /** `failed_packages`: the specs whose installation failed. */
  function FailedSpecs(specs: seq<string>, install: Probe): seq<string> {
    if specs == [] then [] else
    var s := specs[|specs| - 1];
    FailedSpecs(specs[..|specs| - 1], install) + (if install(s) then [] else [s])
  }

  /** Nothing failed exactly when every installation succeeded. */
  lemma {:induction false} NoneFailed(specs: seq<string>, install: Probe)
    ensures FailedSpecs(specs, install) == [] <==> forall s :: s in specs ==> install(s)
  {
    if specs != [] {
      var init, last := specs[..|specs| - 1], specs[|specs| - 1];
      NoneFailed(init, install);
      assert specs == init + [last];
    }
  }

  /** The installation loop: every missing spec is attempted once, in order. */
  method InstallAll(missing: seq<string>, install: Probe) returns (failed: seq<string>, attempts: seq<string>)
    ensures failed == FailedSpecs(missing, install)
    ensures attempts == missing
  {
    failed, attempts := [], [];
    var i := 0;
    while i < |missing|
      invariant 0 <= i <= |missing|
      invariant failed == FailedSpecs(missing[..i], install)
      invariant attempts == missing[..i]
    {
      attempts := attempts + [missing[i]];
      if !install(missing[i]) {
        failed := failed + [missing[i]];
      }
      assert missing[..i + 1][..i] == missing[..i];
      i := i + 1;
    }
    assert missing[..i] == missing;
  }

  /**
   * `check_and_install_dependencies`. `file` is the lines of the
   * requirements file, None when it does not exist; `attempts` lists the
   * specs handed to the installer.
   *
   * The result holds exactly when the file exists and every requirement is
   * installed already or, with automatic installation on, installs
   * successfully. Without automatic installation nothing is attempted; with
   * it exactly the missing specs are, in order.
   */
  method CheckAndInstall(file: Option<seq<string>>, installed: Probe, install: Probe, autoInstall: bool)
    returns (ok: bool, attempts: seq<string>)
    ensures ok <==> file.Some? && forall r :: r in Requirements(file.value) ==>
      installed(r.name) || (autoInstall && install(r.spec))
    ensures file.None? ==> !ok
    ensures file.Some? && Requirements(file.value) == [] ==> ok
    ensures attempts == if file.Some? && autoInstall then MissingSpecs(Requirements(file.value), installed) else []
  {
    attempts := [];
    if file.None? {
      return false, attempts;
    }
    var required := ParseRequirements(file.value);
    if required == [] {
      return true, attempts;
    }
    var installedPackages, missingPackages := Classify(required, installed);
    Partitioned(required, installed);
    if missingPackages == [] {
      assert forall r :: r in required && !installed(r.name) ==> r.spec in missingPackages;
      ok := true;
      attempts := if autoInstall then missingPackages else [];
      return;
    }
    if !autoInstall {
      var s := missingPackages[0];
      assert s in missingPackages;
      return false, attempts;
    }
    var failed;
    failed, attempts := InstallAll(missingPackages, install);
    NoneFailed(missingPackages, install);
    ok := failed == [];
    assert forall r :: r in required && !installed(r.name) ==> r.spec in missingPackages;
  }
}
