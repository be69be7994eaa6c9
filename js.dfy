/** The handful of JavaScript built-ins the scraper relies on, stated on
    Dafny values: absent values, truthiness of strings, `trim`, `indexOf`,
    `includes`, `replace` with a one-character pattern, `parseInt` and the
    decimal rendering of a number inside a template literal. */
module Js {

  /** `undefined` / `null` versus a present value. */
  datatype Option<+T> = None | Some(value: T)

  /** A possibly absent string is truthy when it is present and non-empty. */
  predicate Truthy(s: Option<string>) {
    s.Some? && s.value != ""
  }

  /** `s || d` for a possibly absent string. */
  function OrDefault(s: Option<string>, d: string): string {
    if Truthy(s) then s.value else d
  }

  // ---------------------------------------------------------------------
  // trim

  /** The whitespace `trim` removes (a fixed subset of the full set). */
  predicate IsSpace(c: char) {
    c == ' ' || c == '\t' || c == '\n' || c == '\r' ||
    c == '\U{000B}' || c == '\U{000C}' || c == '\U{00A0}' || c == '\U{FEFF}'
  }

  /** `s` without its leading whitespace: a suffix of `s` that does not start
      with whitespace, and everything cut off was whitespace. */
  function TrimStart(s: string): (r: string)
    ensures |r| <= |s| && r == s[|s| - |r|..]
    ensures r != [] ==> !IsSpace(r[0])
    ensures forall i :: 0 <= i < |s| - |r| ==> IsSpace(s[i])
  {
    if s != [] && IsSpace(s[0]) then
      var r := TrimStart(s[1..]);
      assert s[1..][|s| - 1 - |r|..] == s[|s| - |r|..];
      assert forall i :: 1 <= i < |s| - |r| ==> s[i] == s[1..][i - 1];
      r
    else s
  }

  /** `s` without its trailing whitespace: a prefix of `s` that does not end
      with whitespace, and everything cut off was whitespace. */
  function TrimEnd(s: string): (r: string)
    ensures |r| <= |s| && r == s[..|r|]
    ensures r != [] ==> !IsSpace(r[|r| - 1])
    ensures forall i :: |r| <= i < |s| ==> IsSpace(s[i])
  {
    if s != [] && IsSpace(s[|s| - 1]) then
      var r := TrimEnd(s[..|s| - 1]);
      assert s[..|s| - 1][..|r|] == s[..|r|];
      assert forall i :: |r| <= i < |s| - 1 ==> s[i] == s[..|s| - 1][i];
      r
    else s
  }

  /** `String.prototype.trim`. */
  function Trim(s: string): (r: string)
    ensures |r| <= |s|
    ensures r != [] ==> !IsSpace(r[0]) && !IsSpace(r[|r| - 1])
    ensures r == [] <==> forall i :: 0 <= i < |s| ==> IsSpace(s[i])
  {
    TrimEnd(TrimStart(s))
  }

  /** `r` is the piece of `s` starting at `a`, and everything of `s` before
      and after that piece is whitespace. */
  predicate WhitespaceAround(s: string, a: nat, r: string) {
    && a + |r| <= |s| && r == s[a..a + |r|]
    && (forall i :: 0 <= i < a ==> IsSpace(s[i]))
    && (forall i :: a + |r| <= i < |s| ==> IsSpace(s[i]))
  }

  /** `trim` cuts a leading and a trailing run of whitespace off `s` and keeps
      the piece in between as it is. */
  lemma TrimCutsEnds(s: string)
    ensures exists a: nat :: WhitespaceAround(s, a, Trim(s))
  {
    var t := TrimStart(s);
    var r := TrimEnd(t);
    var a := |s| - |t|;
    assert r == s[a..a + |r|] by {
      assert t == s[a..] && r == t[..|r|];
    }
    forall i | a + |r| <= i < |s| ensures IsSpace(s[i]) {
      assert s[i] == t[i - a];
    }
    assert Trim(s) == r && WhitespaceAround(s, a, r);
  }

  /** Trimming twice is trimming once. */
  lemma TrimIdempotent(s: string)
    ensures Trim(Trim(s)) == Trim(s)
  {
    var r := Trim(s);
    assert TrimStart(r) == r;
    assert TrimEnd(r) == r;
  }

  // ---------------------------------------------------------------------
  // indexOf, includes, replace

  /** The pattern `m` occurs in `s` starting at index `i`. */
  predicate OccursAt(s: string, m: string, i: nat) {
    i + |m| <= |s| && s[i..i + |m|] == m
  }

  /** The first occurrence of `m` in `s` at or after `from`. */
  function IndexFrom(s: string, m: string, from: nat): (r: Option<nat>)
    decreases |s| - from
    ensures r.Some? ==> from <= r.value && OccursAt(s, m, r.value)
    ensures r.Some? ==> forall j :: from <= j < r.value ==> !OccursAt(s, m, j)
    ensures r.None? ==> forall j :: from <= j ==> !OccursAt(s, m, j)
  {
    if from + |m| > |s| then None
    else if s[from..from + |m|] == m then Some(from)
    else IndexFrom(s, m, from + 1)
  }

  /** `s.indexOf(m)`, with -1 as `None`. */
  function IndexOf(s: string, m: string): Option<nat> {
    IndexFrom(s, m, 0)
  }

  /** `s.includes(m)`. */
  predicate Contains(s: string, m: string) {
    IndexOf(s, m).Some?
  }

  /** `s.replace(c, '')` for a one-character string pattern: only the first
      occurrence of `c` is removed. */
  function RemoveFirst(s: string, c: char): (r: string)
    ensures c !in s ==> r == s
    ensures c in s ==> |r| == |s| - 1
  {
    if s == [] then []
    else if s[0] == c then s[1..]
    else [s[0]] + RemoveFirst(s[1..], c)
  }

  /** Removing the first `c` from `prefix + [c] + suffix`, where `prefix`
      holds no `c`, leaves `prefix + suffix`: later occurrences stay. */
  lemma {:induction false} RemoveFirstSplits(prefix: string, c: char, suffix: string)
    requires c !in prefix
    ensures RemoveFirst(prefix + [c] + suffix, c) == prefix + suffix
  {
    if prefix != [] {
      assert (prefix + [c] + suffix)[1..] == prefix[1..] + [c] + suffix;
      RemoveFirstSplits(prefix[1..], c, suffix);
    }
  }

  // ---------------------------------------------------------------------
  // numbers as decimal strings

  predicate IsDigit(c: char) {
    '0' <= c <= '9'
  }

  predicate AllDigits(s: string) {
    forall i :: 0 <= i < |s| ==> IsDigit(s[i])
  }

  function DigitChar(d: nat): (c: char)
    requires d < 10
    ensures IsDigit(c) && (c as int) - ('0' as int) == d
  {
    (('0' as int) + d) as char
  }

  /** The number of decimal digits at the start of `s`. */
  function LeadingDigits(s: string): (n: nat)
    ensures n <= |s| && AllDigits(s[..n])
    ensures n < |s| ==> !IsDigit(s[n])
  {
    if s != [] && IsDigit(s[0]) then
      var n := 1 + LeadingDigits(s[1..]);
      assert s[..n] == [s[0]] + s[1..][..n - 1];
      n
    else 0
  }

  /** The value of a string of decimal digits, most significant first. */
  function DecimalValue(s: string): nat
    requires AllDigits(s)
  {
    if s == [] then 0
    else 10 * DecimalValue(s[..|s| - 1]) + ((s[|s| - 1] as int) - ('0' as int))
  }

  /** `parseInt(s)` for a string that starts with its digits: the value of
      the longest run of leading decimal digits, `None` (NaN) when there is
      none. */
  function ParseInt(s: string): (r: Option<nat>)
    ensures r.None? <==> s == [] || !IsDigit(s[0])
  {
    var n := LeadingDigits(s);
    if n == 0 then None else Some(DecimalValue(s[..n]))
  }

  /** `${n}` for a non-negative integer: its decimal digits without leading
      zeros. */
  function NatToDecimal(n: nat): (r: string)
    ensures r != [] && AllDigits(r)
    ensures r[0] == '0' ==> n == 0
  {
    if n < 10 then [DigitChar(n)] else NatToDecimal(n / 10) + [DigitChar(n % 10)]
  }

  /** `parseInt` reads back the number a template literal wrote. */
  lemma {:induction false} ParseIntOfDecimal(n: nat)
    ensures ParseInt(NatToDecimal(n)) == Some(n)
  {
    var s := NatToDecimal(n);
    LeadingDigitsOfDigits(s);
    assert s[..|s|] == s;
    DecimalValueOfDecimal(n);
  }

  lemma {:induction false} DecimalValueOfDecimal(n: nat)
    ensures DecimalValue(NatToDecimal(n)) == n
  {
    if n >= 10 {
      var s := NatToDecimal(n);
      assert s[..|s| - 1] == NatToDecimal(n / 10);
      DecimalValueOfDecimal(n / 10);
    }
  }

  lemma LeadingDigitsOfDigits(s: string)
    requires AllDigits(s)
    ensures LeadingDigits(s) == |s|
  {
  }

  /** The only number written as "1" is 1. */
  lemma DecimalIsOne(n: nat)
    ensures NatToDecimal(n) == "1" <==> n == 1
  {
  }
}
