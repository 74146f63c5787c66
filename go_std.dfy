/**
 * The parts of Go's standard library (os, strings, strconv, fmt) whose exact
 * behaviour the executor's decisions depend on.
 */
module GoStd {
  import opened GoErrors

  // ---------------------------------------------------------------- os

  /** os.Getenv: the variable's value, or "" when it is unset. */
  function Getenv(env: map<string, string>, name: string): (v: string)
    ensures name in env ==> v == env[name]
    ensures name !in env ==> v == ""
  {
    if name in env then env[name] else ""
  }

  // ---------------------------------------------------------------- strings

  /** strings.HasPrefix */
  predicate HasPrefix(s: string, prefix: string) {
    prefix <= s
  }

  /** strings.HasSuffix */
  predicate HasSuffix(s: string, suffix: string) {
    |suffix| <= |s| && s[|s| - |suffix|..] == suffix
  }

  /** The cut set " \n\t\r" the commands trim log output with. */
  const Whitespace: set<char> := {' ', '\n', '\t', '\r'}

  /** Drops every leading character that is in `cut`. */
  function TrimLeft(s: string, cut: set<char>): (r: string)
    ensures |r| <= |s| && r == s[|s| - |r|..]
    ensures r != [] ==> r[0] !in cut
    ensures forall i :: 0 <= i < |s| - |r| ==> s[i] in cut
  {
    if s != [] && s[0] in cut then TrimLeft(s[1..], cut) else s
  }

  /** Drops every trailing character that is in `cut`. */
  function TrimRight(s: string, cut: set<char>): (r: string)
    ensures |r| <= |s| && r == s[..|r|]
    ensures r != [] ==> r[|r| - 1] !in cut
    ensures forall i :: |r| <= i < |s| ==> s[i] in cut
  {
    if s != [] && s[|s| - 1] in cut then TrimRight(s[..|s| - 1], cut) else s
  }

  /** strings.Trim with a cut set of ASCII characters: left side first, then right. */
  function Trim(s: string, cut: set<char>): string {
    TrimRight(TrimLeft(s, cut), cut)
  }

  /** Leading cut characters do not change what TrimLeft keeps. */
  lemma {:induction false} TrimLeftSkips(pre: string, rest: string, cut: set<char>)
    requires forall i :: 0 <= i < |pre| ==> pre[i] in cut
    ensures TrimLeft(pre + rest, cut) == TrimLeft(rest, cut)
  {
    if pre != [] {
      assert (pre + rest)[0] == pre[0] && (pre + rest)[1..] == pre[1..] + rest;
      assert TrimLeft(pre + rest, cut) == TrimLeft(pre[1..] + rest, cut);
      TrimLeftSkips(pre[1..], rest, cut);
    } else {
      assert pre + rest == rest;
    }
  }

  /** Trailing cut characters do not change what TrimRight keeps. */
  lemma {:induction false} TrimRightSkips(rest: string, post: string, cut: set<char>)
    requires forall i :: 0 <= i < |post| ==> post[i] in cut
    ensures TrimRight(rest + post, cut) == TrimRight(rest, cut)
  {
    if post != [] {
      var s := rest + post;
      assert s[|s| - 1] == post[|post| - 1];
      assert s[..|s| - 1] == rest + post[..|post| - 1];
      assert TrimRight(s, cut) == TrimRight(rest + post[..|post| - 1], cut);
      TrimRightSkips(rest, post[..|post| - 1], cut);
    } else {
      assert rest + post == rest;
    }
  }

  /**
   * Trim recovers the core of any string made of cut characters, a core that neither
   * starts nor ends with one, and cut characters again.
   */
  lemma TrimSurrounded(pre: string, core: string, post: string, cut: set<char>)
    requires forall i :: 0 <= i < |pre| ==> pre[i] in cut
    requires forall i :: 0 <= i < |post| ==> post[i] in cut
    requires core != [] ==> core[0] !in cut && core[|core| - 1] !in cut
    ensures Trim(pre + core + post, cut) == core
  {
    assert pre + core + post == pre + (core + post);
    TrimLeftSkips(pre, core + post, cut);
    if core == [] {
      assert core + post == post + [];
      TrimLeftSkips(post, [], cut);
    } else {
      assert (core + post)[0] == core[0];
      assert TrimLeft(pre + core + post, cut) == core + post;
      TrimRightSkips(core, post, cut);
    }
  }

  /** strings.Cut with a one-character separator: the text before and after its first occurrence. */
  function Cut(s: string, sep: char): (r: (string, string, bool))
    ensures r.2 <==> sep in s
    ensures r.2 ==> r.0 + [sep] + r.1 == s && sep !in r.0
    ensures !r.2 ==> r.0 == s && r.1 == ""
  {
    if s == [] then (s, "", false)
    else if s[0] == sep then ("", s[1..], true)
    else
      var (before, after, found) := Cut(s[1..], sep);
      assert s == [s[0]] + s[1..];
      ([s[0]] + before, after, found)
  }

  /** `sep` occurs in `s` starting at position i. */
  predicate OccursAt(s: string, sep: string, i: nat) {
    i + |sep| <= |s| && s[i..i + |sep|] == sep
  }

  /** The first occurrence of `sep` in `s` at or after position i. */
  function IndexFrom(s: string, sep: string, i: nat): (r: Option<nat>)
    requires i <= |s|
    ensures r.Some? ==> i <= r.value && OccursAt(s, sep, r.value)
    ensures r.Some? ==> forall j :: i <= j < r.value ==> !OccursAt(s, sep, j)
    ensures r.None? ==> forall j :: i <= j ==> !OccursAt(s, sep, j)
    decreases |s| - i
  {
    if i + |sep| > |s| then None
    else if OccursAt(s, sep, i) then Some(i)
    else IndexFrom(s, sep, i + 1)
  }

  /** strings.SplitN(s, sep, 2): split at the first occurrence of `sep` only. */
  function SplitN2(s: string, sep: string): (parts: seq<string>)
    ensures |parts| == 1 || |parts| == 2
    ensures |parts| == 1 <==> forall j :: !OccursAt(s, sep, j)
    ensures |parts| == 1 ==> parts[0] == s
    ensures |parts| == 2 ==>
      && OccursAt(s, sep, |parts[0]|)
      && (forall j :: 0 <= j < |parts[0]| ==> !OccursAt(s, sep, j))
      && parts[0] == s[..|parts[0]|]
      && parts[1] == s[|parts[0]| + |sep|..]
  {
    match IndexFrom(s, sep, 0)
    case None => [s]
    case Some(i) => [s[..i], s[i + |sep|..]]
  }

  // ---------------------------------------------------------------- strconv

  /** The range of Go's `int` on the 64-bit platforms the executor is built for. */
  const MinInt: int := -0x8000_0000_0000_0000
  const MaxInt: int := 0x7FFF_FFFF_FFFF_FFFF

  predicate IsDigit(c: char) {
    '0' <= c <= '9'
  }

  predicate AllDigits(s: string) {
    forall i :: 0 <= i < |s| ==> IsDigit(s[i])
  }

  /** The value of a string of decimal digits, most significant first. */
  function DigitsValue(s: string): nat
    requires AllDigits(s)
  {
    if s == [] then 0 else DigitsValue(s[..|s| - 1]) * 10 + (s[|s| - 1] as int - '0' as int)
  }

  /**
   * strconv.Atoi: an optional '+' or '-', then at least one decimal digit, and a value
   * that fits in a Go int; anything else is an error (None).
   */
  function Atoi(s: string): (r: Option<int>)
    ensures r.Some? ==> MinInt <= r.value <= MaxInt
    ensures s == [] ==> r.None?
    ensures r.Some? ==> (s != [] && AllDigits(s)) || (|s| > 1 && (s[0] == '+' || s[0] == '-') && AllDigits(s[1..]))
    ensures s != [] && AllDigits(s) ==> r == (if DigitsValue(s) <= MaxInt then Some(DigitsValue(s)) else None)
    ensures |s| > 1 && s[0] == '+' && AllDigits(s[1..]) ==>
      r == (if DigitsValue(s[1..]) <= MaxInt then Some(DigitsValue(s[1..])) else None)
    ensures |s| > 1 && s[0] == '-' && AllDigits(s[1..]) ==>
      r == (if DigitsValue(s[1..]) <= -MinInt then Some(-(DigitsValue(s[1..]) as int)) else None)
  {
    var signed := s != [] && (s[0] == '+' || s[0] == '-');
    var digits := if signed then s[1..] else s;
    if digits == [] || !AllDigits(digits) then None
    else
      var v: int := if signed && s[0] == '-' then -(DigitsValue(digits) as int) else DigitsValue(digits);
      if MinInt <= v <= MaxInt then Some(v) else None
  }

  /** The decimal digits of a natural number, without leading zeros. */
  function Digits(n: nat): (s: string)
    ensures s != [] && AllDigits(s)
  {
    if n < 10 then [('0' as int + n) as char]
    else Digits(n / 10) + [('0' as int + n % 10) as char]
  }

  /** The decimal form fmt's %d verb prints for an integer. */
  function Itoa(n: int): string {
    if n < 0 then "-" + Digits(-n) else Digits(n)
  }

  lemma {:induction false} DigitsValueOfDigits(n: nat)
    ensures DigitsValue(Digits(n)) == n
  {
    if n >= 10 {
      DigitsValueOfDigits(n / 10);
      var s := Digits(n);
      assert s[..|s| - 1] == Digits(n / 10);
    }
  }

  /** Every int that fmt prints with %d parses back to itself with strconv.Atoi. */
  lemma AtoiItoa(n: int)
    requires MinInt <= n <= MaxInt
    ensures Atoi(Itoa(n)) == Some(n)
  {
    var digits := Digits(if n < 0 then -n else n);
    DigitsValueOfDigits(if n < 0 then -n else n);
    assert IsDigit(digits[0]);
    if n < 0 {
      assert Itoa(n)[1..] == digits;
    }
  }

  // ---------------------------------------------------------------- fmt

  /**
   * The message of fmt.Errorf(format) called with no arguments, as the executor does
   * with scheduler-supplied strings: "%%" prints '%', a lone trailing '%' prints
   * "%!(NOVERB)", and '%' followed by any other character c prints "%!c(MISSING)".
   */
  function Errorf(format: string): (msg: string)
    ensures '%' !in format ==> msg == format
  {
    if format == [] then []
    else if format[0] != '%' then [format[0]] + Errorf(format[1..])
    else if |format| == 1 then "%!(NOVERB)"
    else if format[1] == '%' then "%" + Errorf(format[2..])
    else "%!" + [format[1]] + "(MISSING)" + Errorf(format[2..])
  }
}
