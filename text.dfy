/** String operations of the JavaScript runtime that the handlers use: the `\s`
    character class, `trim`, `toLowerCase`, `split` on one character, and turning
    a number into its decimal digits. */
module Text {

  /** The characters JavaScript's `\s` matches and `String.prototype.trim` strips:
      WhiteSpace and LineTerminator of ECMA-262 (section 12.2 and 12.3) with the
      Unicode space separators. */
  const Spaces: set<char> := {
    '\t', '\n', '\U{000B}', '\U{000C}', '\r', ' ', '\U{00A0}', '\U{1680}',
    '\U{2000}', '\U{2001}', '\U{2002}', '\U{2003}', '\U{2004}', '\U{2005}',
    '\U{2006}', '\U{2007}', '\U{2008}', '\U{2009}', '\U{200A}',
    '\U{2028}', '\U{2029}', '\U{202F}', '\U{205F}', '\U{3000}', '\U{FEFF}'
  }

  predicate IsSpace(c: char) {
    c in Spaces
  }

  predicate NoSpace(s: string) {
    forall k :: 0 <= k < |s| ==> !IsSpace(s[k])
  }

  /** Every character of `s` is white space. */
  predicate AllSpace(s: string) {
    forall k :: 0 <= k < |s| ==> IsSpace(s[k])
  }

  /** `r` is what is left of `s` once its leading white space is cut off: a suffix
      of `s`, everything before it white space, and not starting with white space. */
  predicate CutFront(s: string, r: string) {
    && |r| <= |s| && r == s[|s| - |r|..] && AllSpace(s[..|s| - |r|])
    && (r != [] ==> !IsSpace(r[0]))
  }

  /** `r` is what is left of `s` once its trailing white space is cut off: a prefix
      of `s`, everything after it white space, and not ending with white space. */
  predicate CutBack(s: string, r: string) {
    && |r| <= |s| && r == s[..|r|] && AllSpace(s[|r|..])
    && (r != [] ==> !IsSpace(r[|r| - 1]))
  }

  /** `String.prototype.trimStart`. */
  function TrimStart(s: string): (r: string)
    ensures CutFront(s, r)
  {
    if s != [] && IsSpace(s[0]) then
      var r := TrimStart(s[1..]);
      TrimStartStep(s, r);
      r
    else
      assert s[|s| - |s|..] == s;
      s
  }

  /** `String.prototype.trimEnd`. */
  function TrimEnd(s: string): (r: string)
    ensures CutBack(s, r)
  {
    if s != [] && IsSpace(s[|s| - 1]) then
      var r := TrimEnd(s[..|s| - 1]);
      TrimEndStep(s, r);
      r
    else
      assert s[..|s|] == s;
      s
  }

  lemma TrimStartStep(s: string, r: string)
    requires s != [] && IsSpace(s[0]) && CutFront(s[1..], r)
    ensures CutFront(s, r)
  {
    assert s[..|s| - |r|] == [s[0]] + s[1..][..|s| - 1 - |r|];
  }

  lemma TrimEndStep(s: string, r: string)
    requires s != [] && IsSpace(s[|s| - 1]) && CutBack(s[..|s| - 1], r)
    ensures CutBack(s, r)
  {
    assert s[|r|..] == s[..|s| - 1][|r|..] + [s[|s| - 1]];
  }

  /** `r` is `s` with `i` characters of white space cut off the front and white
      space cut off the back, and neither end of `r` is white space. */
  predicate Trimmed(s: string, i: nat, r: string) {
    && i + |r| <= |s| && r == s[i..i + |r|]
    && AllSpace(s[..i]) && AllSpace(s[i + |r|..])
    && (r != [] ==> !IsSpace(r[0]) && !IsSpace(r[|r| - 1]))
  }

  /** `String.prototype.trim`. */
  function Trim(s: string): string {
    TrimEnd(TrimStart(s))
  }

  /** `trim` keeps the middle of `s`: what it cuts off the front and the back is white
      space, and neither end of what it keeps is white space. */
  lemma TrimSpec(s: string)
    ensures |Trim(s)| <= |s|
    ensures Trimmed(s, |s| - |TrimStart(s)|, Trim(s))
  {
    TrimShape(s, TrimStart(s), TrimEnd(TrimStart(s)));
  }

  /** A white-space-free-ended prefix of a suffix of `s`, with white space cut off on
      both sides, sits in the middle of `s` between two runs of white space. */
  lemma TrimShape(s: string, t: string, r: string)
    requires CutFront(s, t) && CutBack(t, r)
    ensures Trimmed(s, |s| - |t|, r)
  {
    var i := |s| - |t|;
    assert t[|r|..] == s[i + |r|..];
    if r != [] {
      assert r[0] == t[0];
    }
  }

  /** A string without white space is left alone by `trim`. */
  lemma {:induction false} TrimNoSpace(s: string)
    requires NoSpace(s)
    ensures Trim(s) == s
  {
    TrimSpec(s);
    assert s != [] ==> !IsSpace(s[0]) && !IsSpace(s[|s| - 1]);
  }

  /** A string of white space trims to nothing. */
  lemma TrimAllSpace(s: string)
    requires AllSpace(s)
    ensures Trim(s) == ""
  {
    TrimSpec(s);
  }

  /** `trim` is idempotent. */
  lemma TrimIdempotent(s: string)
    ensures Trim(Trim(s)) == Trim(s)
  {
    var r := Trim(s);
    TrimSpec(s);
    if r != [] {
      assert TrimStart(r) == r;
      assert TrimEnd(r) == r;
    }
  }

  function LowerChar(c: char): char {
    if 'A' <= c <= 'Z' then (c as int + 32) as char else c
  }

  /** `String.prototype.toLowerCase` on ASCII letters; other characters are kept. */
  function ToLower(s: string): (r: string)
    ensures |r| == |s|
    ensures forall k :: 0 <= k < |s| ==> r[k] == LowerChar(s[k])
  {
    seq(|s|, k requires 0 <= k < |s| => LowerChar(s[k]))
  }

  function UpperChar(c: char): char {
    if 'a' <= c <= 'z' then (c as int - 32) as char else c
  }

  /** `String.prototype.toUpperCase` on ASCII letters; other characters are kept. */
  function ToUpper(s: string): (r: string)
    ensures |r| == |s|
    ensures forall k :: 0 <= k < |s| ==> r[k] == UpperChar(s[k])
  {
    seq(|s|, k requires 0 <= k < |s| => UpperChar(s[k]))
  }

  /** The pieces joined back with the separator between them. */
  function Join(parts: seq<string>, sep: char): string
    decreases |parts|
  {
    if parts == [] then ""
    else if |parts| == 1 then parts[0]
    else parts[0] + [sep] + Join(parts[1..], sep)
  }

  /** `String.prototype.split` with a one-character separator: always at least one
      piece, and no piece contains the separator. */
  function Split(s: string, sep: char): (r: seq<string>)
    ensures |r| >= 1
    ensures forall k :: 0 <= k < |r| ==> sep !in r[k]
    decreases |s|
  {
    if s == [] then [""]
    else
      var rest := Split(s[1..], sep);
      if s[0] == sep then [""] + rest
      else [[s[0]] + rest[0]] + rest[1..]
  }

  /** Joining a piece in front of at least one more puts the separator between. */
  lemma JoinCons(a: string, rest: seq<string>, sep: char)
    requires |rest| >= 1
    ensures Join([a] + rest, sep) == a + [sep] + Join(rest, sep)
  {
    assert ([a] + rest)[1..] == rest;
  }

  /** Joining after a character is glued to the first piece. */
  lemma JoinGlue(c: char, rest: seq<string>, sep: char)
    requires |rest| >= 1
    ensures Join([[c] + rest[0]] + rest[1..], sep) == [c] + Join(rest, sep)
  {
    var r := [[c] + rest[0]] + rest[1..];
    if |rest| == 1 {
      assert r == [[c] + rest[0]];
    } else {
      assert rest == [rest[0]] + rest[1..];
      JoinCons([c] + rest[0], rest[1..], sep);
      JoinCons(rest[0], rest[1..], sep);
    }
  }

  /** Splitting and joining back gives the original string. */
  lemma {:induction false} JoinSplit(s: string, sep: char)
    ensures Join(Split(s, sep), sep) == s
    decreases |s|
  {
    if s != [] {
      var rest := Split(s[1..], sep);
      JoinSplit(s[1..], sep);
      assert s == [s[0]] + s[1..];
      if s[0] == sep {
        JoinCons("", rest, sep);
      } else {
        JoinGlue(s[0], rest, sep);
      }
    }
  }

  predicate IsDigit(c: char) {
    '0' <= c <= '9'
  }

  /** The character of one decimal digit. */
  function DigitChar(d: nat): (c: char)
    requires d < 10
    ensures IsDigit(c) && c as int - '0' as int == d
  {
    ('0' as int + d) as char
  }

  /** `n.toString()` for a non-negative integer: its decimal digits, most significant first. */
  function DecimalString(n: nat): (r: string)
    ensures |r| >= 1
    ensures forall k :: 0 <= k < |r| ==> IsDigit(r[k])
    ensures n < 10 <==> |r| == 1
  {
    if n < 10 then [DigitChar(n)]
    else DecimalString(n / 10) + [DigitChar(n % 10)]
  }

  /** The number the digits stand for. */
  function DigitsValue(s: string): int {
    if s == [] then 0 else 10 * DigitsValue(s[..|s| - 1]) + (s[|s| - 1] as int - '0' as int)
  }

  /** The decimal string reads back as the number. */
  lemma {:induction false} DecimalStringValue(n: nat)
    ensures DigitsValue(DecimalString(n)) == n
  {
    if n >= 10 {
      DecimalStringValue(n / 10);
      var r := DecimalString(n);
      assert r[..|r| - 1] == DecimalString(n / 10);
    }
  }

  /** `s.slice(-k)`: the last `k` characters, or all of `s` if it is shorter. */
  function LastChars(s: string, k: nat): (r: string)
    ensures |r| == if |s| < k then |s| else k
    ensures r == s[|s| - |r|..]
  {
    if |s| <= k then s else s[|s| - k..]
  }

  function Pow10(k: nat): (p: nat)
    ensures p >= 1
  {
    if k == 0 then 1 else 10 * Pow10(k - 1)
  }

  lemma DigitsValueSnoc(u: string, c: char)
    ensures DigitsValue(u + [c]) == 10 * DigitsValue(u) + (c as int - '0' as int)
  {
    assert (u + [c])[..|u + [c]| - 1] == u;
  }

  lemma LastCharsSnoc(s: string, c: char, k: nat)
    ensures LastChars(s + [c], k + 1) == LastChars(s, k) + [c]
  {
  }

  /** The last `k` decimal digits of `n` read back as `n` modulo `10^k`. */
  lemma LastDigitsValue(n: nat, k: nat)
    ensures DigitsValue(LastChars(DecimalString(n), k)) == n % Pow10(k)
  {
    DecimalStringValue(n);
    LastCharsValue(DecimalString(n), k);
  }

  /** The last `k` characters of a digit string are worth its value modulo `10^k`. */
  lemma {:induction false} LastCharsValue(s: string, k: nat)
    requires AllDigits(s)
    ensures DigitsValue(LastChars(s, k)) == DigitsValue(s) % Pow10(k)
    decreases |s|
  {
    if k == 0 {
      NoLastChars(s);
    } else if s == [] {
      EmptyLastChars(k);
    } else {
      AllDigitsPrefix(s);
      LastCharsValue(s[..|s| - 1], k - 1);
      LastCharsValueStep(s, k);
    }
  }

  predicate AllDigits(s: string) {
    forall i :: 0 <= i < |s| ==> IsDigit(s[i])
  }

  lemma AllDigitsPrefix(s: string)
    requires s != [] && AllDigits(s)
    ensures AllDigits(s[..|s| - 1]) && IsDigit(s[|s| - 1])
  {
  }

  /** One digit more: the value of the last `k` characters follows from the value of
      the last `k - 1` characters before the final digit. */
  lemma LastCharsValueStep(s: string, k: nat)
    requires k >= 1 && s != [] && IsDigit(s[|s| - 1])
    requires DigitsValue(LastChars(s[..|s| - 1], k - 1)) == DigitsValue(s[..|s| - 1]) % Pow10(k - 1)
    ensures DigitsValue(LastChars(s, k)) == DigitsValue(s) % Pow10(k)
  {
    LastValueLast(s, k);
    ValueLast(s, k);
  }

  /** The value of a digit string modulo `10^k`, from the value without its last digit. */
  lemma ValueLast(s: string, k: nat)
    requires k >= 1 && s != [] && IsDigit(s[|s| - 1])
    ensures DigitsValue(s) % Pow10(k)
      == 10 * (DigitsValue(s[..|s| - 1]) % Pow10(k - 1)) + (s[|s| - 1] as int - '0' as int)
  {
    ModSnoc(DigitsValue(s), DigitsValue(s[..|s| - 1]), s[|s| - 1] as int - '0' as int, k);
  }

  lemma NoLastChars(s: string)
    ensures DigitsValue(LastChars(s, 0)) == DigitsValue(s) % Pow10(0)
  {
    assert LastChars(s, 0) == [];
    ModUnique(DigitsValue(s), 1, DigitsValue(s), 0);
  }

  lemma EmptyLastChars(k: nat)
    ensures DigitsValue(LastChars([], k)) == DigitsValue([]) % Pow10(k)
  {
    ModUnique(0, Pow10(k), 0, 0);
  }

  /** Appending digit `d` to a value of remainder `V % 10^(k-1)` gives the remainder modulo `10^k`. */
  lemma ModSnoc(x: int, v: int, d: int, k: nat)
    requires k >= 1 && 0 <= d < 10 && x == 10 * v + d
    ensures x % Pow10(k) == 10 * (v % Pow10(k - 1)) + d
  {
    var p := Pow10(k - 1);
    assert Pow10(k) == 10 * p;
    var q, r := v / p, v % p;
    assert v == q * p + r;
    assert x == q * (10 * p) + (10 * r + d) by {
      assert 10 * (q * p) == q * (10 * p);
    }
    assert 10 * r + d < 10 * p by {
      assert r <= p - 1;
    }
    ModUnique(x, 10 * p, q, 10 * r + d);
  }

  lemma LastValueLast(s: string, k: nat)
    requires k >= 1 && s != []
    ensures DigitsValue(LastChars(s, k))
      == 10 * DigitsValue(LastChars(s[..|s| - 1], k - 1)) + (s[|s| - 1] as int - '0' as int)
  {
    var u, c := s[..|s| - 1], s[|s| - 1];
    assert s == u + [c];
    LastCharsSnoc(u, c, k - 1);
    DigitsValueSnoc(LastChars(u, k - 1), c);
  }

  /** A number of at least `10^k` has more than `k` digits. */
  lemma {:induction false} DecimalStringLength(n: nat, k: nat)
    requires n >= Pow10(k)
    ensures |DecimalString(n)| > k
  {
    if k > 0 {
      assert Pow10(k) == 10 * Pow10(k - 1);
      assert n >= 10;
      assert n / 10 >= Pow10(k - 1);
      DecimalStringLength(n / 10, k - 1);
    }
  }

  lemma MulAtLeast(d: int, m: int)
    requires d >= 1 && m > 0
    ensures d * m >= m
  {
    if d > 1 {
      MulAtLeast(d - 1, m);
      assert d * m == (d - 1) * m + m;
    }
  }

  /** Division and remainder are the unique quotient and remainder. */
  lemma ModUnique(n: int, m: int, q: int, r: int)
    requires m > 0 && 0 <= r < m && n == q * m + r
    ensures n % m == r
  {
    var d := q - n / m;
    assert n == (n / m) * m + n % m;
    assert d * m == n % m - r by {
      assert d * m == q * m - (n / m) * m;
    }
    if d >= 1 {
      MulAtLeast(d, m);
    }
    assert d == 0;
  }

  /** `String.prototype.substring(start, end)` with `start <= end`: both ends clamped
      to the string. */
  function Substring(s: string, start: nat, end: nat): (r: string)
    requires start <= end
    ensures var i, j := (if start < |s| then start else |s|), (if end < |s| then end else |s|);
      r == s[i..j]
  {
    if |s| <= start then "" else if |s| <= end then s[start..] else s[start..end]
  }
}
