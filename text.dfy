/** The string primitives the classifier relies on: Python's `str.lower()`,
    `str.split()` with no argument, and `str(int)` for the order number. */
module Text {

  /** The characters Python's `str.isspace()` accepts; `str.split()` with no
      argument separates tokens at maximal runs of them. */
  predicate IsSpace(c: char) {
    || ('\U{0009}' <= c <= '\U{000D}')
    || ('\U{001C}' <= c <= '\U{0020}')
    || c == '\U{0085}' || c == '\U{00A0}' || c == '\U{1680}'
    || ('\U{2000}' <= c <= '\U{200A}')
    || c == '\U{2028}' || c == '\U{2029}' || c == '\U{202F}' || c == '\U{205F}' || c == '\U{3000}'
  }

  predicate NoSpace(s: string) {
    forall i :: 0 <= i < |s| ==> !IsSpace(s[i])
  }

  /** Lower-casing of one character: the ASCII capitals, the Latin-1
      capitals U+00C0-U+00DE (but U+00D7), the basic Cyrillic capitals
      U+0400-U+042F, and the KELVIN SIGN and ANGSTROM SIGN, which
      lower-case to 'k' and U+00E5. Every other character, the rest of the
      Cyrillic and Latin Extended capitals included, is left as it is. */
  function Lower(c: char): char {
    if || ('A' <= c <= 'Z')
       || ('\U{00C0}' <= c <= '\U{00DE}' && c != '\U{00D7}')
       || ('\U{0410}' <= c <= '\U{042F}')
    then
      (c as int + 32) as char
    else if '\U{0400}' <= c <= '\U{040F}' then
      (c as int + 80) as char
    else if c == '\U{212A}' then
      'k'
    else if c == '\U{212B}' then
      '\U{00E5}'
    else
      c
  }

  function LowerStr(s: string): (r: string)
    ensures |r| == |s|
  {
    seq(|s|, i requires 0 <= i < |s| => Lower(s[i]))
  }

  /** Lower-casing twice is lower-casing once, and it never turns a
      separator into a letter or back. */
  lemma LowerFacts(c: char)
    ensures Lower(Lower(c)) == Lower(c)
    ensures IsSpace(Lower(c)) == IsSpace(c)
  {
  }

  lemma LowerStrIdempotent(s: string)
    ensures LowerStr(LowerStr(s)) == LowerStr(s)
  {
    forall i | 0 <= i < |s| ensures LowerStr(LowerStr(s))[i] == LowerStr(s)[i] {
      LowerFacts(s[i]);
    }
  }

  function LowerAll(ts: seq<string>): (r: seq<string>)
    ensures |r| == |ts|
  {
    seq(|ts|, i requires 0 <= i < |ts| => LowerStr(ts[i]))
  }

  /** The token being read, if any, as a list of zero or one tokens. */
  function Flush(word: string): seq<string> {
    if word == [] then [] else [word]
  }

  /** Splits `s` at whitespace, `word` being the part of the current token
      read so far. */
  function SplitFrom(s: string, word: string): seq<string>
    decreases |s|
  {
    if s == [] then Flush(word)
    else if IsSpace(s[0]) then Flush(word) + SplitFrom(s[1..], [])
    else SplitFrom(s[1..], word + [s[0]])
  }

  /** Python's `s.split()`: the maximal runs of non-whitespace characters,
      in order. */
  function Split(s: string): seq<string> {
    SplitFrom(s, [])
  }

  lemma {:induction false} SplitFromTokens(s: string, word: string)
    requires NoSpace(word)
    ensures forall t :: t in SplitFrom(s, word) ==> t != [] && NoSpace(t)
    decreases |s|
  {
    if s != [] {
      if IsSpace(s[0]) {
        SplitFromTokens(s[1..], []);
      } else {
        SplitFromTokens(s[1..], word + [s[0]]);
      }
    }
  }

  /** Every token is non-empty and holds no whitespace. */
  lemma SplitTokens(s: string)
    ensures forall t :: t in Split(s) ==> t != [] && NoSpace(t)
  {
    SplitFromTokens(s, []);
  }

  lemma {:induction false} SplitFromSpace(a: string, c: char, b: string, word: string)
    requires IsSpace(c)
    ensures SplitFrom(a + [c] + b, word) == SplitFrom(a, word) + Split(b)
    decreases |a|
  {
    if a == [] {
      assert a + [c] + b == [c] + b;
      assert ([c] + b)[1..] == b;
    } else {
      assert (a + [c] + b)[0] == a[0];
      assert (a + [c] + b)[1..] == a[1..] + [c] + b;
      if IsSpace(a[0]) {
        SplitFromSpace(a[1..], c, b, []);
      } else {
        SplitFromSpace(a[1..], c, b, word + [a[0]]);
      }
    }
  }

  /** A whitespace character cuts the text into two independently split
      halves. */
  lemma SplitAtSpace(a: string, c: char, b: string)
    requires IsSpace(c)
    ensures Split(a + [c] + b) == Split(a) + Split(b)
  {
    SplitFromSpace(a, c, b, []);
  }

  lemma {:induction false} SplitFromWord(w: string, word: string)
    requires NoSpace(w)
    ensures SplitFrom(w, word) == Flush(word + w)
    decreases |w|
  {
    if w == [] {
      assert word + w == word;
    } else {
      assert word + [w[0]] + w[1..] == word + w;
      SplitFromWord(w[1..], word + [w[0]]);
    }
  }

  /** Text without whitespace is a single token (or none, when empty). */
  lemma SplitWord(w: string)
    requires NoSpace(w)
    ensures Split(w) == Flush(w)
  {
    SplitFromWord(w, []);
    assert [] + w == w;
  }

  lemma {:induction false} SplitFromLower(s: string, word: string)
    ensures SplitFrom(LowerStr(s), LowerStr(word)) == LowerAll(SplitFrom(s, word))
    decreases |s|
  {
    if s == [] {
    } else {
      var ls := LowerStr(s);
      assert ls[0] == Lower(s[0]);
      assert ls[1..] == LowerStr(s[1..]);
      LowerFacts(s[0]);
      if IsSpace(s[0]) {
        SplitFromLower(s[1..], []);
        assert LowerStr([]) == [];
        assert LowerAll(Flush(word) + SplitFrom(s[1..], [])) == LowerAll(Flush(word)) + LowerAll(SplitFrom(s[1..], []));
      } else {
        assert LowerStr(word) + [ls[0]] == LowerStr(word + [s[0]]);
        SplitFromLower(s[1..], word + [s[0]]);
      }
    }
  }

  /** Lower-casing commutes with splitting: the tokens of the lower-cased
      text are the lower-cased tokens of the text. */
  lemma SplitLower(s: string)
    ensures Split(LowerStr(s)) == LowerAll(Split(s))
  {
    SplitFromLower(s, []);
    assert LowerStr([]) == [];
  }

  predicate IsDigit(c: char) {
    '0' <= c <= '9'
  }

  function DigitChar(d: nat): (c: char)
    requires d < 10
    ensures IsDigit(c) && c as int - '0' as int == d
  {
    ('0' as int + d) as char
  }

  /** The decimal digits of `n`, most significant first, without leading
      zeros. */
  function NatToString(n: nat): (s: string)
    ensures |s| >= 1 && forall i :: 0 <= i < |s| ==> IsDigit(s[i])
    decreases n
  {
    if n < 10 then [DigitChar(n)] else NatToString(n / 10) + [DigitChar(n % 10)]
  }

  function DigitValue(c: char): (d: nat)
    requires IsDigit(c)
    ensures d < 10
  {
    c as int - '0' as int
  }

  /** The value of a string of decimal digits. */
  function ParseDigits(s: string): nat
    requires forall i :: 0 <= i < |s| ==> IsDigit(s[i])
    decreases |s|
  {
    if s == [] then 0 else ParseDigits(s[..|s| - 1]) * 10 + DigitValue(s[|s| - 1])
  }

  /** Reading back the digits of `n` gives `n`. */
  lemma {:induction false} ParseNatToString(n: nat)
    ensures ParseDigits(NatToString(n)) == n
    decreases n
  {
    var s := NatToString(n);
    if n < 10 {
      assert s[..|s| - 1] == [];
    } else {
      assert s[..|s| - 1] == NatToString(n / 10);
      ParseNatToString(n / 10);
    }
  }

  /** Python's `str(i)` for an integer. */
  function IntToString(i: int): string {
    if i < 0 then "-" + NatToString(-i) else NatToString(i)
  }

  /** Distinct integers print differently. */
  lemma IntToStringInjective(a: int, b: int)
    requires IntToString(a) == IntToString(b)
    ensures a == b
  {
    var sa, sb := IntToString(a), IntToString(b);
    assert (a < 0) == (sa[0] == '-');
    assert (b < 0) == (sb[0] == '-');
    if a < 0 {
      assert sa[1..] == NatToString(-a) && sb[1..] == NatToString(-b);
      ParseNatToString(-a);
      ParseNatToString(-b);
    } else {
      ParseNatToString(a);
      ParseNatToString(b);
    }
  }
}
