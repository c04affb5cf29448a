/**
 * The pieces of Python's `str` and list semantics the modelled code relies on:
 * whitespace stripping, ASCII case mapping, prefix and substring tests,
 * `sep.join`, digit filtering, decimal rendering of integers and the
 * negative-index slice `s[-k:]`.
 */
module PyText {
  import opened Wrappers

  /** Python truthiness of an optional string: None and "" both fail. */
  predicate Truthy(s: Option<string>) {
    s.Some? && s.value != ""
  }

  /** Characters for which Python's `str.isspace()` holds (and which `\s` matches). */
  predicate IsSpace(c: char) {
    c == ' ' || c == '\t' || c == '\n' || c == '\r' || c == '\U{000B}' || c == '\U{000C}'
    || ('\U{001C}' <= c <= '\U{001F}') || c == '\U{0085}' || c == '\U{00A0}' || c == '\U{1680}'
    || ('\U{2000}' <= c <= '\U{200A}') || c == '\U{2028}' || c == '\U{2029}' || c == '\U{202F}'
    || c == '\U{205F}' || c == '\U{3000}'
  }

  /**
   * Whether stripping with Python's `chars` argument removes `c`: None
   * (no argument) removes whitespace, `Some(q)` removes the one character `q`.
   */
  predicate Stripped(c: char, chars: Option<char>) {
    match chars
    case None => IsSpace(c)
    case Some(q) => c == q
  }

  /** `s.lstrip(chars)` */
  function LStripBy(s: string, chars: Option<char>): (r: string)
    ensures |r| <= |s| && r == s[|s| - |r|..]
    ensures r == [] || !Stripped(r[0], chars)
  {
    if s != [] && Stripped(s[0], chars) then LStripBy(s[1..], chars) else s
  }

  /** `s.rstrip(chars)` */
  function RStripBy(s: string, chars: Option<char>): (r: string)
    ensures |r| <= |s| && r == s[..|r|]
    ensures r == [] || !Stripped(r[|r| - 1], chars)
  {
    if s != [] && Stripped(s[|s| - 1], chars) then RStripBy(s[..|s| - 1], chars) else s
  }

  /** `lstrip` removes only characters it strips. */
  lemma {:induction false} LStripRemoved(s: string, chars: Option<char>)
    ensures forall i :: 0 <= i < |s| - |LStripBy(s, chars)| ==> Stripped(s[i], chars)
  {
    if s != [] && Stripped(s[0], chars) {
      LStripRemoved(s[1..], chars);
    }
  }

  /** `rstrip` removes only characters it strips. */
  lemma {:induction false} RStripRemoved(s: string, chars: Option<char>)
    ensures forall i :: |RStripBy(s, chars)| <= i < |s| ==> Stripped(s[i], chars)
  {
    if s != [] && Stripped(s[|s| - 1], chars) {
      RStripRemoved(s[..|s| - 1], chars);
    }
  }

  /** `s.strip(chars)`: both ends. */
  function StripBy(s: string, chars: Option<char>): (r: string)
    ensures |r| <= |s|
    ensures r == [] || (!Stripped(r[0], chars) && !Stripped(r[|r| - 1], chars))
  {
    RStripBy(LStripBy(s, chars), chars)
  }

  /** `s.lstrip()` */
  function LStrip(s: string): string { LStripBy(s, None) }

  /** `s.strip()` */
  function Strip(s: string): string { StripBy(s, None) }

  /** `s.strip(c)` for a single character `c`. */
  function StripChar(s: string, c: char): string { StripBy(s, Some(c)) }

  /** `LStripBy` leaves a string alone when its first character is kept. */
  lemma LStripNoop(s: string, chars: Option<char>)
    requires s == [] || !Stripped(s[0], chars)
    ensures LStripBy(s, chars) == s
  {
  }

  /** `RStripBy` leaves a string alone when its last character is kept. */
  lemma RStripNoop(s: string, chars: Option<char>)
    requires s == [] || !Stripped(s[|s| - 1], chars)
    ensures RStripBy(s, chars) == s
  {
  }

  /** `s.strip(chars)` is the identity on a string that starts and ends with kept characters. */
  lemma StripNoop(s: string, chars: Option<char>)
    requires s == [] || (!Stripped(s[0], chars) && !Stripped(s[|s| - 1], chars))
    ensures StripBy(s, chars) == s
  {
    LStripNoop(s, chars);
    RStripNoop(s, chars);
  }

  /** Stripping a stripped string changes nothing. */
  lemma StripIdempotent(s: string)
    ensures Strip(Strip(s)) == Strip(s)
  {
    StripNoop(Strip(s), None);
  }

  /** ASCII `c.lower()` */
  function LowerChar(c: char): char {
    if 'A' <= c <= 'Z' then (c as int + 32) as char else c
  }

  /** ASCII `s.lower()` */
  function Lower(s: string): (r: string)
    ensures |r| == |s|
    ensures forall i :: 0 <= i < |s| ==> r[i] == LowerChar(s[i])
  {
    if s == [] then [] else [LowerChar(s[0])] + Lower(s[1..])
  }

  /** Lower-casing distributes over concatenation. */
  lemma LowerAppend(a: string, b: string)
    ensures Lower(a + b) == Lower(a) + Lower(b)
  {
  }

  /** `s.startswith(p)` */
  predicate StartsWith(s: string, p: string) {
    |p| <= |s| && s[..|p|] == p
  }

  /** `sub in s` */
  predicate Contains(s: string, sub: string)
    decreases |s|
  {
    StartsWith(s, sub) || (s != [] && Contains(s[1..], sub))
  }

  /** `sub in s` holds exactly when `sub` occurs at some position of `s`. */
  lemma {:induction false} ContainsAt(s: string, sub: string, k: nat)
    requires k + |sub| <= |s| && s[k..k + |sub|] == sub
    ensures Contains(s, sub)
    decreases k
  {
    if k == 0 {
      assert s[..|sub|] == sub;
    } else {
      assert s[1..][k - 1..k - 1 + |sub|] == s[k..k + |sub|];
      ContainsAt(s[1..], sub, k - 1);
    }
  }

  /** An occurrence inside `b` is an occurrence inside `a + b + c`. */
  lemma ContainsInfix(a: string, b: string, c: string, sub: string)
    requires Contains(b, sub)
    ensures Contains(a + b + c, sub)
  {
    var k := ContainsWitness(b, sub);
    assert (a + b + c)[|a| + k..|a| + k + |sub|] == b[k..k + |sub|];
    ContainsAt(a + b + c, sub, |a| + k);
  }

  /** The position of an occurrence. */
  lemma {:induction false} ContainsWitness(s: string, sub: string) returns (k: nat)
    requires Contains(s, sub)
    ensures k + |sub| <= |s| && s[k..k + |sub|] == sub
    decreases |s|
  {
    if StartsWith(s, sub) {
      k := 0;
    } else {
      var j := ContainsWitness(s[1..], sub);
      k := j + 1;
      assert s[k..k + |sub|] == s[1..][j..j + |sub|];
    }
  }

  /** `sep.join(parts)` */
  function Join(parts: seq<string>, sep: string): string {
    if parts == [] then ""
    else if |parts| == 1 then parts[0]
    else parts[0] + sep + Join(parts[1..], sep)
  }

  /** `''.join(parts)` */
  function Concat(parts: seq<string>): string {
    if parts == [] then "" else Concat(parts[..|parts| - 1]) + parts[|parts| - 1]
  }

  /** ASCII decimal digit (what `\d` and `\D` are taken to mean here) */
  predicate IsDigit(c: char) { '0' <= c <= '9' }

  predicate AllDigits(s: string) {
    forall i :: 0 <= i < |s| ==> IsDigit(s[i])
  }

  /** `re.sub(r'\D', '', s)`: the digits of `s`, in order. */
  function Digits(s: string): (r: string)
    ensures AllDigits(r) && |r| <= |s|
  {
    if s == [] then ""
    else if IsDigit(s[0]) then [s[0]] + Digits(s[1..])
    else Digits(s[1..])
  }

  /** Removing non-digits from a string of digits changes nothing. */
  lemma {:induction false} DigitsOfDigits(s: string)
    requires AllDigits(s)
    ensures Digits(s) == s
  {
    if s != [] {
      assert AllDigits(s[1..]) by {
        forall i | 0 <= i < |s[1..]| ensures IsDigit(s[1..][i]) { assert s[1..][i] == s[i + 1]; }
      }
      DigitsOfDigits(s[1..]);
    }
  }

  /** Decimal digits of a natural number, most significant first (no leading zeros). */
  function NatToString(n: nat): (r: string)
    ensures |r| >= 1 && AllDigits(r)
    ensures |r| > 1 ==> r[0] != '0'
    decreases n
  {
    if n < 10 then [('0' as int + n) as char]
    else NatToString(n / 10) + [('0' as int + n % 10) as char]
  }

  /** `str(n)` for a Python `int` */
  function IntToString(n: int): (r: string)
    ensures |r| >= 1
    ensures n >= 0 ==> AllDigits(r)
    ensures n < 0 ==> r[0] == '-' && |r| >= 2 && AllDigits(r[1..])
  {
    if n >= 0 then NatToString(n) else "-" + NatToString(-n)
  }

  /** The value of a string of decimal digits, read most significant first. */
  function DecimalValue(s: string): nat
    requires AllDigits(s)
    decreases |s|
  {
    if s == [] then 0
    else DecimalValue(s[..|s| - 1]) * 10 + (s[|s| - 1] as int - '0' as int)
  }

  /** Reading back the rendering of a natural number gives the number. */
  lemma {:induction false} NatToStringRoundTrip(n: nat)
    ensures DecimalValue(NatToString(n)) == n
    decreases n
  {
    if n >= 10 {
      var s := NatToString(n);
      assert s[..|s| - 1] == NatToString(n / 10);
      NatToStringRoundTrip(n / 10);
    }
  }

  /** `int(s)` on an optionally signed string of decimal digits (None where Python raises). */
  function IntOf(s: string): Option<int> {
    if s != [] && AllDigits(s) then Some(DecimalValue(s))
    else if |s| >= 2 && s[0] == '-' && AllDigits(s[1..]) then Some(-(DecimalValue(s[1..]) as int))
    else None
  }

  /** `int(str(n)) == n` */
  lemma IntToStringRoundTrip(n: int)
    ensures IntOf(IntToString(n)) == Some(n)
  {
    if n >= 0 {
      NatToStringRoundTrip(n);
    } else {
      var r := IntToString(n);
      assert !AllDigits(r) by { assert !IsDigit(r[0]); }
      assert r[1..] == NatToString(-n);
      NatToStringRoundTrip(-n);
    }
  }

  /**
   * Python's `s[start:]` for an arbitrary integer `start`: a negative start
   * counts from the end, and both are clamped to the bounds of `s`.
   */
  function SliceFrom<T>(s: seq<T>, start: int): (r: seq<T>)
    ensures |r| <= |s| && r == s[|s| - |r|..]
    ensures 0 <= start <= |s| ==> |r| == |s| - start
    ensures -|s| <= start < 0 ==> |r| == -start
  {
    var b := if start < 0 then (if start + |s| < 0 then 0 else start + |s|)
             else (if start > |s| then |s| else start);
    s[b..]
  }

  /**
   * Python's `s[-k:]`. For `k > 0` this is the last `k` elements (all of `s`
   * when it is shorter); `s[-0:]` is `s[0:]`, the whole of `s`; a negative `k`
   * drops the first `-k` elements.
   */
  function Tail<T>(s: seq<T>, k: int): (r: seq<T>)
    ensures k > 0 ==> |r| == (if k < |s| then k else |s|) && r == s[|s| - |r|..]
    ensures k == 0 ==> r == s
    ensures k < 0 ==> r == s[(if -k < |s| then -k else |s|)..]
  {
    SliceFrom(s, -k)
  }
  /** `[x for x in s if p(x)]` */
  function Filter<T>(s: seq<T>, p: T -> bool): (r: seq<T>)
    ensures |r| <= |s|
  {
    if s == [] then [] else (if p(s[0]) then [s[0]] else []) + Filter(s[1..], p)
  }

  /** The filter keeps exactly the elements that pass. */
  lemma {:induction false} FilterMembers<T>(s: seq<T>, p: T -> bool)
    ensures forall i :: 0 <= i < |Filter(s, p)| ==> Filter(s, p)[i] in s && p(Filter(s, p)[i])
    ensures forall i :: 0 <= i < |s| && p(s[i]) ==> s[i] in Filter(s, p)
  {
    if s != [] {
      FilterMembers(s[1..], p);
    }
  }

  /** Every element passes exactly one of two complementary filters, so the two counts add up. */
  lemma {:induction false} FilterPartition<T>(s: seq<T>, p: T -> bool, q: T -> bool)
    requires forall i :: 0 <= i < |s| ==> (q(s[i]) <==> !p(s[i]))
    ensures |Filter(s, p)| + |Filter(s, q)| == |s|
  {
    if s != [] {
      FilterPartition(s[1..], p, q);
    }
  }

  /** Filtering a concatenation filters each part. */
  lemma {:induction false} FilterAppend<T>(a: seq<T>, b: seq<T>, p: T -> bool)
    ensures Filter(a + b, p) == Filter(a, p) + Filter(b, p)
  {
    if a == [] {
      assert a + b == b;
    } else {
      var t, head := a[1..], if p(a[0]) then [a[0]] else [];
      assert (a + b)[0] == a[0] && (a + b)[1..] == t + b;
      assert Filter(a + b, p) == head + Filter(t + b, p);
      FilterAppend(t, b, p);
      assert Filter(a, p) == head + Filter(t, p);
      assert head + (Filter(t, p) + Filter(b, p)) == (head + Filter(t, p)) + Filter(b, p);
    }
  }

  /** A filter that passes no element leaves nothing. */
  lemma {:induction false} NoneSelected<T>(s: seq<T>, p: T -> bool)
    requires forall i :: 0 <= i < |s| ==> !p(s[i])
    ensures Filter(s, p) == []
  {
    if s != [] {
      NoneSelected(s[1..], p);
    }
  }

  /** A filter that passes every element keeps the whole sequence. */
  lemma {:induction false} FilterAll<T>(s: seq<T>, p: T -> bool)
    ensures (forall i :: 0 <= i < |s| ==> p(s[i])) ==> Filter(s, p) == s
  {
    if s != [] {
      FilterAll(s[1..], p);
    }
  }

  /** `list(reversed(s))` */
  function Reverse<T>(s: seq<T>): (r: seq<T>)
    ensures |r| == |s|
    ensures forall i :: 0 <= i < |s| ==> r[i] == s[|s| - 1 - i]
  {
    if s == [] then [] else Reverse(s[1..]) + [s[0]]
  }
}
