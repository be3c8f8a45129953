/**
 * String helpers shared by pagination, the repository and the HUD pages.
 * A string is a sequence of Unicode code points, which is how
 * `Array.from(text)` sees a JavaScript string.
 */
module Text {

  /** The code points that `String.prototype.trim` removes: the WhiteSpace
      and LineTerminator characters of ECMAScript (tab, LF, VT, FF, CR,
      space, the Zs category, ZWNBSP, LS and PS). */
  predicate IsWhitespace(c: char) {
    || c == '\t' || c == '\n' || c == '\U{000B}' || c == '\U{000C}' || c == '\r'
    || c == ' ' || c == '\U{00A0}' || c == '\U{1680}'
    || ('\U{2000}' <= c <= '\U{200A}')
    || c == '\U{2028}' || c == '\U{2029}' || c == '\U{202F}' || c == '\U{205F}'
    || c == '\U{3000}' || c == '\U{FEFF}'
  }

  /** Number of whitespace code points at the start of `s`. */
  function LeadingWhitespace(s: string): (n: nat)
    ensures n <= |s|
    ensures forall k :: 0 <= k < n ==> IsWhitespace(s[k])
    ensures n < |s| ==> !IsWhitespace(s[n])
  {
    if s == [] || !IsWhitespace(s[0]) then 0 else 1 + LeadingWhitespace(s[1..])
  }

  /** Index where the trailing run of whitespace of `s` begins. */
  function TrailingWhitespaceStart(s: string): (n: nat)
    ensures n <= |s|
    ensures forall k :: n <= k < |s| ==> IsWhitespace(s[k])
    ensures 0 < n ==> !IsWhitespace(s[n - 1])
  {
    if s == [] || !IsWhitespace(s[|s| - 1]) then |s| else TrailingWhitespaceStart(s[..|s| - 1])
  }

  /** `s.trim()`: the longest slice of `s` that neither starts nor ends with
      whitespace, after dropping only whitespace on both sides. */
  function Trim(s: string): (t: string)
    ensures t == [] || (!IsWhitespace(t[0]) && !IsWhitespace(t[|t| - 1]))
    ensures LeadingWhitespace(s) + |t| <= |s|
    ensures t == s[LeadingWhitespace(s)..LeadingWhitespace(s) + |t|]
    ensures forall k :: LeadingWhitespace(s) + |t| <= k < |s| ==> IsWhitespace(s[k])
    ensures t == [] <==> forall k :: 0 <= k < |s| ==> IsWhitespace(s[k])
    ensures s == [] || (!IsWhitespace(s[0]) && !IsWhitespace(s[|s| - 1])) ==> t == s
  {
    var i := LeadingWhitespace(s);
    var j := TrailingWhitespaceStart(s);
    if j <= i then [] else s[i..j]
  }

  /** `s` with every occurrence of `c` deleted. */
  function Without(s: string, c: char): string {
    if s == [] then [] else (if s[0] == c then [] else [s[0]]) + Without(s[1..], c)
  }

  lemma {:induction false} WithoutConcat(a: string, b: string, c: char)
    ensures Without(a + b, c) == Without(a, c) + Without(b, c)
  {
    if a != [] {
      assert (a + b)[1..] == a[1..] + b;
      WithoutConcat(a[1..], b, c);
    } else {
      assert a + b == b;
    }
  }

  /** Deleting `c` from a string made only of `c` leaves nothing. */
  lemma {:induction false} WithoutOnly(s: string, c: char)
    requires forall k :: 0 <= k < |s| ==> s[k] == c
    ensures Without(s, c) == []
  {
    if s != [] {
      WithoutOnly(s[1..], c);
    }
  }

  /** The code points of `s` that are not whitespace, in their order: what a
      reader sees of a text whatever its spacing and line breaks. */
  function NonWhitespace(s: string): string {
    if s == [] then [] else (if IsWhitespace(s[0]) then [] else [s[0]]) + NonWhitespace(s[1..])
  }

  lemma {:induction false} NonWhitespaceConcat(a: string, b: string)
    ensures NonWhitespace(a + b) == NonWhitespace(a) + NonWhitespace(b)
  {
    if a != [] {
      assert (a + b)[1..] == a[1..] + b;
      NonWhitespaceConcat(a[1..], b);
    } else {
      assert a + b == b;
    }
  }

  /** Whitespace contributes nothing visible. */
  lemma {:induction false} NonWhitespaceOfWhitespace(s: string)
    requires forall k :: 0 <= k < |s| ==> IsWhitespace(s[k])
    ensures NonWhitespace(s) == []
  {
    if s != [] {
      NonWhitespaceOfWhitespace(s[1..]);
    }
  }

  /** Deleting a whitespace character changes nothing visible. */
  lemma {:induction false} NonWhitespaceWithout(s: string, c: char)
    requires IsWhitespace(c)
    ensures NonWhitespace(Without(s, c)) == NonWhitespace(s)
  {
    if s != [] {
      NonWhitespaceWithout(s[1..], c);
      NonWhitespaceConcat(if s[0] == c then [] else [s[0]], Without(s[1..], c));
    }
  }

  /** Trimming removes no visible character. */
  lemma TrimKeepsNonWhitespace(s: string)
    ensures NonWhitespace(Trim(s)) == NonWhitespace(s)
  {
    var i := LeadingWhitespace(s);
    var t := Trim(s);
    assert s == s[..i] + t + s[i + |t|..];
    NonWhitespaceConcat(s[..i] + t, s[i + |t|..]);
    NonWhitespaceConcat(s[..i], t);
    NonWhitespaceOfWhitespace(s[..i]);
    NonWhitespaceOfWhitespace(s[i + |t|..]);
  }

  /** Number of CR-LF pairs in `s`; two pairs never overlap. */
  function CrlfCount(s: string): nat {
    if |s| < 2 then 0 else (if s[0] == '\r' && s[1] == '\n' then 1 else 0) + CrlfCount(s[1..])
  }

  /** `s.replace(/\r\n/g, "\n")`: each CR-LF pair, matched left to right,
      becomes a single LF, so the string shrinks by exactly one code point
      per pair. Only carriage returns are ever removed, a CR-LF pair becomes
      a lone LF, a lone code point (a bare CR included) is kept, and a string
      without carriage returns is left as it is. */
  function ReplaceCrlf(s: string): (r: string)
    ensures |r| + CrlfCount(s) == |s|
    ensures Without(r, '\r') == Without(s, '\r')
    ensures '\r' !in s ==> r == s
    ensures s == "\r\n" ==> r == "\n"
    ensures |s| == 1 ==> r == s
  {
    if |s| >= 2 && s[0] == '\r' && s[1] == '\n' then
      assert Without(s, '\r') == Without(s[1..], '\r') && s[1..][1..] == s[2..];
      "\n" + ReplaceCrlf(s[2..])
    else if s == [] then []
    else [s[0]] + ReplaceCrlf(s[1..])
  }

  /** Concatenation is associative; stated once so that long proofs need
      not rediscover it. */
  lemma ConcatAssoc<T>(x: seq<T>, y: seq<T>, z: seq<T>)
    ensures x + (y + z) == (x + y) + z
  {
  }

  /** The rewrite works piece by piece, as long as the cut does not split a
      CR-LF pair: together with the two small cases in the contract of
      `ReplaceCrlf` this determines its result on every string. */
  lemma {:induction false} ReplaceCrlfConcat(a: string, b: string)
    requires !(a != [] && a[|a| - 1] == '\r' && b != [] && b[0] == '\n')
    ensures ReplaceCrlf(a + b) == ReplaceCrlf(a) + ReplaceCrlf(b)
    decreases |a|
  {
    if a == [] {
      assert a + b == b;
    } else if |a| >= 2 && a[0] == '\r' && a[1] == '\n' {
      var ab := a + b;
      assert ab[2..] == a[2..] + b;
      ReplaceCrlfConcat(a[2..], b);
      calc {
        ReplaceCrlf(ab);
        "\n" + ReplaceCrlf(ab[2..]);
        "\n" + (ReplaceCrlf(a[2..]) + ReplaceCrlf(b));
        { ConcatAssoc("\n", ReplaceCrlf(a[2..]), ReplaceCrlf(b)); }
        ("\n" + ReplaceCrlf(a[2..])) + ReplaceCrlf(b);
        ReplaceCrlf(a) + ReplaceCrlf(b);
      }
    } else {
      var ab := a + b;
      assert ab[1..] == a[1..] + b;
      ReplaceCrlfConcat(a[1..], b);
      assert !(|ab| >= 2 && ab[0] == '\r' && ab[1] == '\n');
      calc {
        ReplaceCrlf(ab);
        [ab[0]] + ReplaceCrlf(ab[1..]);
        [a[0]] + (ReplaceCrlf(a[1..]) + ReplaceCrlf(b));
        { ConcatAssoc([a[0]], ReplaceCrlf(a[1..]), ReplaceCrlf(b)); }
        ([a[0]] + ReplaceCrlf(a[1..])) + ReplaceCrlf(b);
        ReplaceCrlf(a) + ReplaceCrlf(b);
      }
    }
  }

  /** `s.replace(/\r/g, "\n")`: every remaining carriage return becomes a
      line feed and every other code point stays where it is. */
  function ReplaceCr(s: string): (r: string)
    ensures |r| == |s|
    ensures '\r' !in r
    ensures forall i :: 0 <= i < |s| && s[i] != '\r' ==> r[i] == s[i]
    ensures forall i :: 0 <= i < |s| && s[i] == '\r' ==> r[i] == '\n'
  {
    seq(|s|, i requires 0 <= i < |s| => if s[i] == '\r' then '\n' else s[i])
  }

  /** Turning carriage returns into line feeds changes nothing visible. */
  lemma {:induction false} ReplaceCrKeepsNonWhitespace(s: string)
    ensures NonWhitespace(ReplaceCr(s)) == NonWhitespace(s)
  {
    if s != [] {
      ReplaceCrKeepsNonWhitespace(s[1..]);
      assert ReplaceCr(s)[1..] == ReplaceCr(s[1..]);
    }
  }

  /** `parts.join(sep)`. */
  function Join(parts: seq<string>, sep: string): string {
    if parts == [] then []
    else if |parts| == 1 then parts[0]
    else parts[0] + sep + Join(parts[1..], sep)
  }

  /** `c.repeat(n)` for a one-code-point string `c`. */
  function Repeat(c: char, n: nat): string {
    seq(n, _ => c)
  }

  predicate IsDigit(c: char) {
    '0' <= c <= '9'
  }

  function DigitChar(d: nat): char
    requires d < 10
  {
    ('0' as int + d) as char
  }

  function DigitValue(c: char): nat
    requires IsDigit(c)
  {
    (c as int - '0' as int) as nat
  }

  /** Decimal rendering of a non-negative integer, as `${n}` prints it. */
  function NatToString(n: nat): (s: string)
    ensures |s| >= 1
    ensures forall i :: 0 <= i < |s| ==> IsDigit(s[i])
    ensures |s| > 1 ==> s[0] != '0'
  {
    if n < 10 then [DigitChar(n)] else NatToString(n / 10) + [DigitChar(n % 10)]
  }

  /** Value of a string of decimal digits. */
  function DecimalValue(s: string): nat
    requires forall i :: 0 <= i < |s| ==> IsDigit(s[i])
  {
    if s == [] then 0 else DecimalValue(s[..|s| - 1]) * 10 + DigitValue(s[|s| - 1])
  }

  /** Reading back a rendered number gives the number. */
  lemma {:induction false} DecimalRoundTrip(n: nat)
    ensures DecimalValue(NatToString(n)) == n
  {
    if n >= 10 {
      DecimalRoundTrip(n / 10);
      var s := NatToString(n);
      assert s[..|s| - 1] == NatToString(n / 10);
    }
  }

  /** Distinct numbers render as distinct strings. */
  lemma NatToStringInjective(m: nat, n: nat)
    requires NatToString(m) == NatToString(n)
    ensures m == n
  {
    DecimalRoundTrip(m);
    DecimalRoundTrip(n);
  }
}
