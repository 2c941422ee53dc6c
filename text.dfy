/**
 * The few Kotlin string operations the serving layer relies on, with their exact rules:
 * `trim()`, `removePrefix`, `startsWith`, `contains`, `Int.toString()` and `toIntOrNull()`.
 */
module Text {
  import opened Wrappers

  /**
   * Kotlin's `Char.isWhitespace()` on the JVM: `Character.isWhitespace(c) || Character.isSpaceChar(c)`,
   * that is the ASCII controls TAB..CR and FS..US, the space separators (including the
   * no-break spaces), and the line and paragraph separators.
   */
  predicate IsWhitespace(c: char) {
    || c == ' '
    || ('\t' <= c <= '\r')
    || ('\U{1C}' <= c <= '\U{1F}')
    || c == '\U{A0}'
    || c == '\U{1680}'
    || ('\U{2000}' <= c <= '\U{200A}')
    || c == '\U{2028}'
    || c == '\U{2029}'
    || c == '\U{202F}'
    || c == '\U{205F}'
    || c == '\U{3000}'
  }

  predicate AllWhitespace(s: string) {
    forall i :: 0 <= i < |s| ==> IsWhitespace(s[i])
  }

  /** A string that `trim()` leaves alone: empty, or starting and ending with a non-whitespace char. */
  predicate Bare(s: string) {
    s == [] || (!IsWhitespace(s[0]) && !IsWhitespace(s[|s| - 1]))
  }

  /** `u[i..j]` is `t` and everything outside it is whitespace. */
  predicate PaddedAt(u: string, t: string, i: int, j: int) {
    && 0 <= i <= j <= |u|
    && u[i..j] == t
    && (forall k :: 0 <= k < i ==> IsWhitespace(u[k]))
    && (forall k :: j <= k < |u| ==> IsWhitespace(u[k]))
  }

  /** `u` is `t` with whitespace padding on either side. */
  ghost predicate Padded(u: string, t: string) {
    exists i, j :: PaddedAt(u, t, i, j)
  }

  /** Drops the leading whitespace: the result is the suffix of `s` after its whitespace prefix. */
  function TrimStart(s: string): (r: string)
    ensures |r| <= |s| && r == s[|s| - |r|..]
    ensures forall k :: 0 <= k < |s| - |r| ==> IsWhitespace(s[k])
    ensures r == [] || !IsWhitespace(r[0])
  {
    if s != [] && IsWhitespace(s[0]) then TrimStart(s[1..]) else s
  }

  /** Drops the trailing whitespace: the result is the prefix of `s` before its whitespace suffix. */
  function TrimEnd(s: string): (r: string)
    ensures |r| <= |s| && r == s[..|r|]
    ensures forall k :: |r| <= k < |s| ==> IsWhitespace(s[k])
    ensures r == [] || !IsWhitespace(r[|r| - 1])
  {
    if s != [] && IsWhitespace(s[|s| - 1]) then TrimEnd(s[..|s| - 1]) else s
  }

  /** Kotlin's `String.trim()`. */
  function Trim(s: string): (r: string)
    ensures Bare(r)
  {
    TrimEnd(TrimStart(s))
  }

  lemma {:induction false} TrimStartPadded(a: string, u: string)
    requires AllWhitespace(a)
    requires u == [] || !IsWhitespace(u[0])
    ensures TrimStart(a + u) == u
  {
    if a != [] {
      assert (a + u)[0] == a[0];
      assert (a + u)[1..] == a[1..] + u;
      TrimStartPadded(a[1..], u);
    } else {
      assert a + u == u;
    }
  }

  lemma {:induction false} TrimEndPadded(u: string, b: string)
    requires AllWhitespace(b)
    requires u == [] || !IsWhitespace(u[|u| - 1])
    ensures TrimEnd(u + b) == u
  {
    if b != [] {
      assert (u + b)[|u + b| - 1] == b[|b| - 1];
      assert (u + b)[..|u + b| - 1] == u + b[..|b| - 1];
      TrimEndPadded(u, b[..|b| - 1]);
    } else {
      assert u + b == u;
    }
  }

  /** A bare string is its own trim. */
  lemma TrimBare(t: string)
    requires Bare(t)
    ensures Trim(t) == t
  {
    assert TrimStart(t) == t;
    assert TrimEnd(t) == t;
  }

  /** Trimming removes exactly the padding around a bare string. */
  lemma TrimPadded(a: string, t: string, b: string)
    requires AllWhitespace(a) && AllWhitespace(b) && Bare(t)
    ensures Trim(a + t + b) == t
  {
    assert a + t + b == a + (t + b);
    if t == [] {
      assert t + b == b;
      TrimStartPadded(a + b, []);
      assert a + b + [] == a + b;
    } else {
      TrimStartPadded(a, t + b);
      TrimEndPadded(t, b);
    }
  }

  /** Whatever `trim()` returns is the input with its whitespace padding removed. */
  lemma TrimIsPadded(u: string)
    ensures Padded(u, Trim(u))
  {
    var v := TrimStart(u);
    var w := TrimEnd(v);
    var i := |u| - |v|;
    var j := i + |w|;
    assert u[i..j] == w;
    assert forall k :: j <= k < |u| ==> u[k] == v[k - i];
    assert PaddedAt(u, w, i, j);
  }

  /** A string padded around a bare `t` trims to `t`. */
  lemma PaddedTrims(u: string, t: string)
    requires Bare(t) && Padded(u, t)
    ensures Trim(u) == t
  {
    var i, j :| PaddedAt(u, t, i, j);
    var a, b := u[..i], u[j..];
    assert u == a + t + b;
    TrimPadded(a, t, b);
  }

  /** `trim()` yields `t` exactly when `t` is bare and `u` is `t` padded with whitespace. */
  lemma TrimCharacterisation(u: string, t: string)
    ensures Trim(u) == t <==> Bare(t) && Padded(u, t)
  {
    if Trim(u) == t {
      TrimIsPadded(u);
    }
    if Bare(t) && Padded(u, t) {
      PaddedTrims(u, t);
    }
  }

  predicate StartsWith(s: string, prefix: string) {
    |prefix| <= |s| && s[..|prefix|] == prefix
  }

  /** Kotlin's `removePrefix`: removes one occurrence of `prefix` at the start, if there is one. */
  function RemovePrefix(s: string, prefix: string): (r: string)
    ensures StartsWith(s, prefix) ==> prefix + r == s
    ensures !StartsWith(s, prefix) ==> r == s
  {
    if StartsWith(s, prefix) then s[|prefix|..] else s
  }

  /** `sub` occurs in `s` starting at index `i`. */
  predicate OccursAt(s: string, sub: string, i: int) {
    0 <= i && i + |sub| <= |s| && s[i..i + |sub|] == sub
  }

  lemma OccursShift(s: string, sub: string)
    requires s != []
    ensures forall i :: 0 <= i ==> (OccursAt(s[1..], sub, i) <==> OccursAt(s, sub, i + 1))
  {
    forall i | 0 <= i ensures OccursAt(s[1..], sub, i) <==> OccursAt(s, sub, i + 1) {
      if 0 <= i && i + |sub| <= |s| - 1 {
        assert s[1..][i..i + |sub|] == s[i + 1..i + 1 + |sub|];
      }
    }
  }

  /** Kotlin's `CharSequence.contains(other)`: `sub` occurs somewhere in `s`. */
  function Contains(s: string, sub: string): (r: bool)
    ensures r <==> exists i :: OccursAt(s, sub, i)
    decreases |s|
  {
    if StartsWith(s, sub) then
      assert OccursAt(s, sub, 0);
      true
    else if |s| <= |sub| then
      assert forall i :: OccursAt(s, sub, i) ==> i == 0;
      false
    else
      OccursShift(s, sub);
      assert forall i :: OccursAt(s, sub, i) ==> i == 0 || OccursAt(s[1..], sub, i - 1);
      Contains(s[1..], sub)
  }

  predicate IsDigit(c: char) {
    '0' <= c <= '9'
  }

  predicate AllDigits(s: string) {
    forall i :: 0 <= i < |s| ==> IsDigit(s[i])
  }

  function DigitValue(c: char): nat
    requires IsDigit(c)
  {
    (c as int - '0' as int) as nat
  }

  function DigitChar(d: nat): (c: char)
    requires d < 10
    ensures IsDigit(c) && DigitValue(c) == d
  {
    ('0' as int + d) as char
  }

  /** The value of a string of decimal digits, most significant first. */
  function DigitsValue(s: string): nat
    requires AllDigits(s)
  {
    if s == [] then 0 else DigitsValue(s[..|s| - 1]) * 10 + DigitValue(s[|s| - 1])
  }

  /** The decimal rendering of a natural number, without leading zeros. */
  function NatToString(n: nat): (r: string)
    ensures |r| >= 1 && AllDigits(r)
    ensures r[0] == '0' ==> n == 0
  {
    if n < 10 then [DigitChar(n)] else NatToString(n / 10) + [DigitChar(n % 10)]
  }

  /** Kotlin's `Int.toString()` / string templates for integers: an optional `-` then the digits. */
  function IntToString(n: int): (r: string)
    ensures |r| >= 1
    ensures n < 0 <==> r[0] == '-'
  {
    if n < 0 then "-" + NatToString(-n) else NatToString(n)
  }

  lemma {:induction false} NatToStringRoundTrip(n: nat)
    ensures DigitsValue(NatToString(n)) == n
  {
    if n >= 10 {
      var s := NatToString(n);
      assert s[..|s| - 1] == NatToString(n / 10);
      NatToStringRoundTrip(n / 10);
    }
  }

  const IntMin: int := -0x8000_0000
  const IntMax: int := 0x7FFF_FFFF

  /** The range of a Kotlin `Int` (32-bit two's complement). */
  predicate InInt32(v: int) {
    IntMin <= v <= IntMax
  }

  /**
   * Kotlin's `String.toIntOrNull()` in radix 10: an optional `+` or `-`, then at least one digit,
   * and the value must fit in an `Int`; anything else is `null`.
   */
  function ParseIntOrNull(s: string): (r: Option<int>)
    ensures r.Some? ==> InInt32(r.value)
    ensures s == [] ==> r.None?
  {
    if s == [] then None
    else if s[0] == '-' || s[0] == '+' then
      if |s| == 1 || !AllDigits(s[1..]) then None
      else
        var d: int := DigitsValue(s[1..]);
        var v: int := if s[0] == '-' then -d else d;
        if InInt32(v) then Some(v) else None
    else if AllDigits(s) then
      var v: int := DigitsValue(s);
      if InInt32(v) then Some(v) else None
    else None
  }

  /** `toIntOrNull` reads back what `toString` wrote, for every `Int`. */
  lemma ParseIntRoundTrip(n: int)
    requires InInt32(n)
    ensures ParseIntOrNull(IntToString(n)) == Some(n)
  {
    var s := IntToString(n);
    if n < 0 {
      assert s[1..] == NatToString(-n);
      NatToStringRoundTrip(-n);
      assert s[0] == '-' && |s| > 1 && AllDigits(s[1..]);
    } else {
      NatToStringRoundTrip(n);
      assert IsDigit(s[0]) && AllDigits(s);
    }
  }
}
