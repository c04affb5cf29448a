/**
 * The two fixed name-registration shapes the chat services recognise,
 * `^name\s*=\s*(.+)$` and `^/setname\s+(.+)$` (both case-insensitive),
 * decided directly on strings instead of through a regular-expression engine,
 * and the clean-up applied to the captured name.
 */
module NameCommand {
  import opened Wrappers
  import opened PyText

  /** `s` begins with the lower-case ASCII word `w`, compared case-insensitively. */
  predicate StartsWithIgnoreCase(s: string, w: string) {
    |w| <= |s| && Lower(s[..|w|]) == w
  }

  /**
   * The `(.+)$` tail of both patterns: the text left after the leading
   * whitespace is consumed (greedily, so the group never starts with
   * whitespace) must be non-empty and, since `.` does not match a newline,
   * free of newlines.
   */
  function CaptureRest(u: string): (g: Option<string>)
    ensures g.Some? <==> LStrip(u) != [] && '\n' !in LStrip(u)
    ensures g.Some? ==> g.value == LStrip(u)
  {
    var g := LStrip(u);
    if g == [] || '\n' in g then None else Some(g)
  }

  /**
   * The group captured by `^name\s*=\s*(.+)$` on an already stripped message,
   * or None when it does not match.
   */
  function MatchNameEquals(m: string): (g: Option<string>)
    ensures g.Some? ==> g.value != [] && '\n' !in g.value && StartsWithIgnoreCase(m, "name")
  {
    if !StartsWithIgnoreCase(m, "name") then None
    else AfterEquals(LStrip(m[4..]))
  }

  /** `=\s*(.+)$` once the spaces before the `=` are consumed. */
  function AfterEquals(t: string): (g: Option<string>)
    ensures g.Some? ==> g.value != [] && '\n' !in g.value
  {
    if t == [] || t[0] != '=' then None else CaptureRest(t[1..])
  }

  /**
   * The group captured by `^/setname\s+(.+)$` on an already stripped message:
   * at least one whitespace character must follow the command word.
   */
  function MatchSetName(m: string): (g: Option<string>)
    ensures g.Some? ==> g.value != [] && '\n' !in g.value && StartsWithIgnoreCase(m, "/setname")
  {
    if !StartsWithIgnoreCase(m, "/setname") then None
    else AfterSpace(m[8..])
  }

  /** `\s+(.+)$`: one whitespace character at least, then the group. */
  function AfterSpace(r: string): (g: Option<string>)
    ensures g.Some? ==> g.value != [] && '\n' !in g.value
  {
    if r == [] || !IsSpace(r[0]) then None else CaptureRest(r)
  }

  /** A character of a contiguous piece of `s` is a character of `s`. */
  lemma InSlice(s: string, a: nat, b: nat, c: char)
    requires a <= b <= |s| && c in s[a..b]
    ensures c in s
  {
    var i :| 0 <= i < b - a && s[a..b][i] == c;
    assert s[a + i] == c;
  }

  /** Stripping removes characters only from the ends, so it adds no newline. */
  lemma StripKeepsNoNewline(s: string, chars: Option<char>)
    ensures '\n' !in s ==> '\n' !in StripBy(s, chars)
  {
  }

  /** `name.strip().strip('"').strip("'")` */
  function CleanName(g: string): (n: string)
    ensures |n| <= |g|
    ensures n == [] || (n[0] != '\'' && n[|n| - 1] != '\'')
    ensures '\n' !in g ==> '\n' !in n
  {
    var a := Strip(g);
    var b := StripChar(a, '"');
    var c := StripChar(b, '\'');
    StripKeepsNoNewline(g, None);
    StripKeepsNoNewline(a, Some('"'));
    StripKeepsNoNewline(b, Some('\''));
    c
  }

  /** `name if name else None` after clean-up. */
  function NameOf(g: Option<string>): (r: Option<string>)
    ensures r.Some? ==> r.value != [] && r.value[0] != '\'' && r.value[|r.value| - 1] != '\''
    ensures g.Some? && '\n' !in g.value && r.Some? ==> '\n' !in r.value
    ensures g.None? ==> r.None?
  {
    match g
    case None => None
    case Some(s) => var n := CleanName(s); if n == [] then None else Some(n)
  }

  /**
   * A name that survives the clean-up unchanged: non-empty, on one line, and
   * neither starting nor ending with whitespace or a quote character.
   */
  predicate PlainName(n: string) {
    n != [] && '\n' !in n && !IsSpace(n[0]) && !IsSpace(n[|n| - 1])
    && n[0] != '"' && n[|n| - 1] != '"' && n[0] != '\'' && n[|n| - 1] != '\''
  }

  /** The clean-up leaves a plain name as it is. */
  lemma CleanPlainName(n: string)
    requires PlainName(n)
    ensures CleanName(n) == n
  {
    StripNoop(n, None);
    StripNoop(n, Some('"'));
    StripNoop(n, Some('\''));
  }

  /** A plain name is kept as the registered name. */
  lemma NameOfPlain(n: string)
    requires PlainName(n)
    ensures NameOf(Some(n)) == Some(n)
  {
    CleanPlainName(n);
  }

  /** Lower-casing leaves a string without upper-case ASCII letters alone. */
  lemma LowerNoop(w: string)
    requires forall i :: 0 <= i < |w| ==> !('A' <= w[i] <= 'Z')
    ensures Lower(w) == w
  {
  }

  lemma PrefixIgnoreCase(w: string, n: string)
    requires forall i :: 0 <= i < |w| ==> !('A' <= w[i] <= 'Z')
    ensures StartsWithIgnoreCase(w + n, w)
  {
    assert (w + n)[..|w|] == w;
    LowerNoop(w);
  }

  /** The group of a plain name is the name itself. */
  lemma CaptureRestPlain(n: string)
    requires PlainName(n)
    ensures CaptureRest(n) == Some(n)
  {
    LStripNoop(n, None);
  }

  /** `=` followed by a plain name is captured as that name. */
  lemma AfterEqualsPlain(n: string)
    requires PlainName(n)
    ensures AfterEquals("=" + n) == Some(n)
  {
    assert ("=" + n)[1..] == n;
    CaptureRestPlain(n);
  }

  /** A space followed by a plain name is captured as that name. */
  lemma AfterSpacePlain(n: string)
    requires PlainName(n)
    ensures AfterSpace(" " + n) == Some(n)
  {
    var r := " " + n;
    assert r[0] == ' ';
    assert LStrip(r) == n by {
      assert r[1..] == n;
      LStripNoop(n, None);
    }
  }

  /** A plain name written as `name=<n>` is already stripped. */
  lemma StripNameEqualsPlain(n: string)
    requires PlainName(n)
    ensures Strip("name=" + n) == "name=" + n && ("name=" + n)[0] == 'n'
  {
    var m := "name=" + n;
    assert m[0] == 'n' && m[|m| - 1] == n[|n| - 1];
    StripNoop(m, None);
  }

  /** `name` followed by `t` starts with the command word and leaves `t` after it. */
  lemma NameWord(t: string)
    ensures StartsWithIgnoreCase("name" + t, "name") && ("name" + t)[4..] == t
  {
    PrefixIgnoreCase("name", t);
  }

  /** A plain name written as `name=<n>` is captured whole. */
  lemma MatchNameEqualsPlain(n: string)
    requires PlainName(n)
    ensures MatchNameEquals("name=" + n) == Some(n)
  {
    var t := "=" + n;
    assert "name=" + n == "name" + t;
    NameWord(t);
    LStripNoop(t, None);
    AfterEqualsPlain(n);
  }

  /** A plain name written as `/setname <n>` is already stripped. */
  lemma StripSetNamePlain(n: string)
    requires PlainName(n)
    ensures Strip("/setname " + n) == "/setname " + n && ("/setname " + n)[0] == '/'
  {
    var m := "/setname " + n;
    assert m[0] == '/' && m[|m| - 1] == n[|n| - 1];
    StripNoop(m, None);
  }

  /** `/setname` followed by `r` starts with the command word and leaves `r` after it. */
  lemma SetNameWord(r: string)
    ensures StartsWithIgnoreCase("/setname" + r, "/setname") && ("/setname" + r)[8..] == r
  {
    PrefixIgnoreCase("/setname", r);
  }

  /** A plain name written as `/setname <n>` is captured whole. */
  lemma MatchSetNamePlain(n: string)
    requires PlainName(n)
    ensures MatchSetName("/setname " + n) == Some(n)
  {
    var r := " " + n;
    assert "/setname " + n == "/setname" + r;
    SetNameWord(r);
    AfterSpacePlain(n);
  }
}
