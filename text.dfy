/** String helpers for the JavaScript string operations the pages use:
    `toLowerCase`, `includes`, `trim`, `join`, `Number.prototype.toString`
    and `toFixed(2)`. */
module Text {

  /** `toLowerCase` on the characters a Portuguese catalogue uses: ASCII
      A-Z and the Latin-1 capitals U+00C0..U+00DE (except U+00D7, the
      multiplication sign) move down by 32; every other character is kept. */
  function LowerChar(c: char): char {
    if 'A' <= c <= 'Z' || ('\U{C0}' <= c <= '\U{DE}' && c != '\U{D7}') then
      (c as int + 32) as char
    else c
  }

  function Lower(s: string): (r: string)
    ensures |r| == |s|
    ensures forall i :: 0 <= i < |s| ==> r[i] == LowerChar(s[i])
  {
    seq(|s|, i requires 0 <= i < |s| => LowerChar(s[i]))
  }

  /** `hay.includes(needle)`: `needle` occurs at some position of `hay`. */
  predicate Contains(hay: string, needle: string)
    decreases |hay|
  {
    needle <= hay || (hay != [] && Contains(hay[1..], needle))
  }

  /** The characters `String.prototype.trim` removes: the ECMAScript
      WhiteSpace and LineTerminator code points. */
  predicate IsJsWhitespace(c: char) {
    c == '\t' || c == '\n' || c == '\U{B}' || c == '\U{C}' || c == '\r' ||
    c == ' ' || c == '\U{A0}' || c == '\U{1680}' ||
    ('\U{2000}' <= c <= '\U{200A}') ||
    c == '\U{2028}' || c == '\U{2029}' || c == '\U{202F}' || c == '\U{205F}' ||
    c == '\U{3000}' || c == '\U{FEFF}'
  }

  predicate IsBlank(s: string) {
    forall i :: 0 <= i < |s| ==> IsJsWhitespace(s[i])
  }

  function TrimStart(s: string): (r: string)
    ensures |r| <= |s|
    ensures r != [] ==> !IsJsWhitespace(r[0])
    decreases |s|
  {
    if s != [] && IsJsWhitespace(s[0]) then TrimStart(s[1..]) else s
  }

  function TrimEnd(s: string): (r: string)
    ensures |r| <= |s|
    decreases |s|
  {
    if s != [] && IsJsWhitespace(s[|s| - 1]) then TrimEnd(s[..|s| - 1]) else s
  }

  /** `s.trim()`. */
  function Trim(s: string): string {
    TrimEnd(TrimStart(s))
  }

  lemma {:induction false} TrimStartEmptyIffBlank(s: string)
    ensures TrimStart(s) == "" <==> IsBlank(s)
    decreases |s|
  {
    if s != [] && IsJsWhitespace(s[0]) {
      TrimStartEmptyIffBlank(s[1..]);
      assert IsBlank(s) <==> IsBlank(s[1..]) by {
        if IsBlank(s[1..]) {
          forall i | 0 <= i < |s| ensures IsJsWhitespace(s[i]) {
            if i > 0 { assert s[i] == s[1..][i - 1]; }
          }
        }
      }
    }
  }

  lemma {:induction false} TrimEndKeepsNonBlank(s: string)
    requires !IsBlank(s)
    ensures TrimEnd(s) != ""
    decreases |s|
  {
    if s != [] && IsJsWhitespace(s[|s| - 1]) {
      var k :| 0 <= k < |s| && !IsJsWhitespace(s[k]);
      assert k < |s| - 1;
      assert s[..|s| - 1][k] == s[k];
      TrimEndKeepsNonBlank(s[..|s| - 1]);
    }
  }

  /** `!s.trim()` holds exactly when `s` consists of whitespace only. */
  lemma TrimEmptyIffBlank(s: string)
    ensures Trim(s) == "" <==> IsBlank(s)
  {
    TrimStartEmptyIffBlank(s);
    if !IsBlank(s) {
      TrimEndKeepsNonBlank(TrimStart(s));
    }
  }

  function Digit(d: nat): (c: char)
    requires d < 10
    ensures '0' <= c <= '9'
  {
    ('0' as int + d) as char
  }

  /** The decimal text of a natural number, as `n.toString()` prints it. */
  function NatToString(n: nat): (r: string)
    ensures |r| >= 1
    ensures forall i :: 0 <= i < |r| ==> '0' <= r[i] <= '9'
    decreases n
  {
    if n < 10 then [Digit(n)] else NatToString(n / 10) + [Digit(n % 10)]
  }

  /** The number a string of decimal digits denotes. */
  function DecimalValue(s: string): nat
    requires forall i :: 0 <= i < |s| ==> '0' <= s[i] <= '9'
    decreases |s|
  {
    if s == [] then 0
    else DecimalValue(s[..|s| - 1]) * 10 + (s[|s| - 1] as int - '0' as int)
  }

  /** Reading back the printed digits gives the number: printing is injective. */
  lemma {:induction false} NatToStringRoundTrip(n: nat)
    ensures DecimalValue(NatToString(n)) == n
    decreases n
  {
    if n >= 10 {
      var s := NatToString(n);
      NatToStringRoundTrip(n / 10);
      assert s[..|s| - 1] == NatToString(n / 10);
    }
  }

  lemma NatToStringInjective(m: nat, n: nat)
    requires NatToString(m) == NatToString(n)
    ensures m == n
  {
    NatToStringRoundTrip(m);
    NatToStringRoundTrip(n);
  }

  /** `x.toFixed(2)`: round half up to hundredths and print with exactly two
      decimals (binary floating-point rounding is not modelled). */
  function ToFixed2(x: real): (r: string)
    ensures r != ""
    ensures '\n' !in r
  {
    if x < 0.0 then "-" + Unsigned2(-x) else Unsigned2(x)
  }

  function Unsigned2(x: real): (r: string)
    requires x >= 0.0
    ensures r != ""
    ensures forall i :: 0 <= i < |r| ==> r[i] == '.' || '0' <= r[i] <= '9'
  {
    var cents := (x * 100.0 + 0.5).Floor;
    assert cents >= 0;
    NatToString(cents / 100) + "." + [Digit(cents % 100 / 10), Digit(cents % 10)]
  }

  /** `parts.join(sep)`. */
  function Join(parts: seq<string>, sep: string): string
    decreases |parts|
  {
    if parts == [] then ""
    else if |parts| == 1 then parts[0]
    else Join(parts[..|parts| - 1], sep) + sep + parts[|parts| - 1]
  }

  function Occurrences(s: string, c: char): nat
    decreases |s|
  {
    if s == [] then 0
    else Occurrences(s[..|s| - 1], c) + (if s[|s| - 1] == c then 1 else 0)
  }

  lemma {:induction false} OccurrencesAppend(a: string, b: string, c: char)
    ensures Occurrences(a + b, c) == Occurrences(a, c) + Occurrences(b, c)
    decreases |b|
  {
    if b != [] {
      assert (a + b)[..|a + b| - 1] == a + b[..|b| - 1];
      OccurrencesAppend(a, b[..|b| - 1], c);
    } else {
      assert a + b == a;
    }
  }

  lemma {:induction false} OccurrencesAbsent(s: string, c: char)
    requires c !in s
    ensures Occurrences(s, c) == 0
    decreases |s|
  {
    if s != [] {
      assert s[..|s| - 1] + [s[|s| - 1]] == s;
      OccurrencesAbsent(s[..|s| - 1], c);
    }
  }

  /** Joining `n >= 1` parts that do not contain the one-character separator
      `c` yields a text with exactly `n - 1` separators: one part per line when
      `c` is a newline. */
  lemma {:induction false} JoinSeparators(parts: seq<string>, c: char)
    requires parts != []
    requires forall i :: 0 <= i < |parts| ==> c !in parts[i]
    ensures Occurrences(Join(parts, [c]), c) == |parts| - 1
    decreases |parts|
  {
    var n := |parts|;
    if n == 1 {
      OccurrencesAbsent(parts[0], c);
    } else {
      var init := parts[..n - 1];
      JoinSeparators(init, c);
      OccurrencesAppend(Join(init, [c]) + [c], parts[n - 1], c);
      OccurrencesAppend(Join(init, [c]), [c], c);
      assert Occurrences([c], c) == 1 by {
        assert [c][..0] == [];
      }
      OccurrencesAbsent(parts[n - 1], c);
    }
  }
}
