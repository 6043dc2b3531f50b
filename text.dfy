/** The parts of Python's `str` type the engine relies on, over `seq<char>`:
    lower-casing, substring tests, whitespace splitting, stripping, line
    splitting and decimal rendering of integers. */
module Text {

  /** Python's `str.isspace` on ASCII: space, tab, line feed, vertical tab,
      form feed, carriage return, and the four separators 0x1C to 0x1F. */
  predicate IsSpace(c: char) {
    c == ' ' || 9 <= c as int <= 13 || 28 <= c as int <= 31
  }

  predicate AllSpace(s: string) {
    forall i :: 0 <= i < |s| ==> IsSpace(s[i])
  }

  function LowerChar(c: char): char {
    if 'A' <= c <= 'Z' then (c as int + 32) as char else c
  }

  /** `s.lower()` for ASCII letters. */
  function ToLower(s: string): (r: string)
    ensures |r| == |s|
    ensures forall i :: 0 <= i < |s| ==> r[i] == LowerChar(s[i])
  {
    seq(|s|, i requires 0 <= i < |s| => LowerChar(s[i]))
  }

  lemma LowerKeepsSpaces(s: string)
    requires AllSpace(s)
    ensures AllSpace(ToLower(s))
  {
  }

  predicate StartsWith(s: string, prefix: string) {
    |prefix| <= |s| && s[..|prefix|] == prefix
  }

  /** Python's `needle in hay` on strings. */
  predicate Contains(hay: string, needle: string)
    decreases |hay|
  {
    StartsWith(hay, needle) || (|hay| > 0 && Contains(hay[1..], needle))
  }

  /** A needle longer than the text, or whose first character the text
      lacks, does not occur in it. */
  lemma {:induction false} NotContained(hay: string, needle: string)
    requires |hay| < |needle| || (needle != [] && needle[0] !in hay)
    ensures !Contains(hay, needle)
    decreases |hay|
  {
    if hay != [] {
      assert hay[0] in hay;
      if needle != [] && needle[0] !in hay {
        assert needle[0] !in hay[1..] by {
          forall i | 0 <= i < |hay[1..]| ensures hay[1..][i] != needle[0] {
            assert hay[1..][i] == hay[i + 1];
          }
        }
      }
      NotContained(hay[1..], needle);
    }
  }

  /** `any(needle in text for needle in needles)`. */
  predicate ContainsAny(text: string, needles: seq<string>) {
    exists i :: 0 <= i < |needles| && Contains(text, needles[i])
  }

  /** `sum(1 for keyword in keywords if keyword in text)`: how many of the
      needles occur in `text`. */
  function CountMatches(text: string, keywords: seq<string>): (n: nat)
    ensures n <= |keywords|
    ensures n > 0 <==> ContainsAny(text, keywords)
    ensures n == |keywords| <==> forall i :: 0 <= i < |keywords| ==> Contains(text, keywords[i])
  {
    if keywords == [] then 0
    else
      var init := keywords[..|keywords| - 1];
      assert forall i :: 0 <= i < |init| ==> init[i] == keywords[i];
      CountMatches(text, init) + (if Contains(text, keywords[|keywords| - 1]) then 1 else 0)
  }

  /** Python's `s.split()`: the maximal runs of non-whitespace characters. */
  function Words(s: string): seq<string> {
    WordsFrom(s, "")
  }

  /** Splits `s` while `word` holds the characters of the word being read. */
  function WordsFrom(s: string, word: string): seq<string>
    decreases |s|
  {
    if s == [] then (if word == [] then [] else [word])
    else if IsSpace(s[0]) then (if word == [] then [] else [word]) + WordsFrom(s[1..], "")
    else WordsFrom(s[1..], word + [s[0]])
  }

  /** Every word is non-empty and holds no whitespace. */
  lemma {:induction false} WordsAreWords(s: string, word: string)
    requires forall i :: 0 <= i < |word| ==> !IsSpace(word[i])
    ensures forall w :: w in WordsFrom(s, word) ==>
              w != [] && forall i :: 0 <= i < |w| ==> !IsSpace(w[i])
    decreases |s|
  {
    if s == [] {
    } else if IsSpace(s[0]) {
      WordsAreWords(s[1..], "");
    } else {
      WordsAreWords(s[1..], word + [s[0]]);
    }
  }

  /** `s.split()` is empty exactly when `s` is empty or all whitespace. */
  lemma {:induction false} NoWordsIffBlank(s: string, word: string)
    ensures WordsFrom(s, word) == [] <==> word == [] && AllSpace(s)
    decreases |s|
  {
    if s == [] {
    } else if IsSpace(s[0]) {
      NoWordsIffBlank(s[1..], "");
      assert AllSpace(s) <==> AllSpace(s[1..]) by {
        assert forall i :: 0 < i < |s| ==> s[i] == s[1..][i - 1];
      }
    } else {
      NoWordsIffBlank(s[1..], word + [s[0]]);
    }
  }

  /** Number of leading whitespace characters: `len(s) - len(s.lstrip())`. */
  function LeadingSpace(s: string): (n: nat)
    ensures n <= |s|
    ensures forall i :: 0 <= i < n ==> IsSpace(s[i])
    ensures n < |s| ==> !IsSpace(s[n])
  {
    if s == [] || !IsSpace(s[0]) then 0 else 1 + LeadingSpace(s[1..])
  }

  function TrailingSpace(s: string): (n: nat)
    ensures n <= |s|
    ensures forall i :: |s| - n <= i < |s| ==> IsSpace(s[i])
  {
    if s == [] || !IsSpace(s[|s| - 1]) then 0 else 1 + TrailingSpace(s[..|s| - 1])
  }

  /** Python's `s.strip()`. */
  function Strip(s: string): (r: string)
    ensures |r| <= |s|
  {
    var t := s[LeadingSpace(s)..];
    t[..|t| - TrailingSpace(t)]
  }

  /** Python's `s.split("\n")`: always at least one piece. */
  function Lines(s: string): (r: seq<string>)
    ensures |r| >= 1
  {
    LinesFrom(s, "")
  }

  function LinesFrom(s: string, line: string): (r: seq<string>)
    ensures |r| >= 1
    decreases |s|
  {
    if s == [] then [line]
    else if s[0] == '\n' then [line] + LinesFrom(s[1..], "")
    else LinesFrom(s[1..], line + [s[0]])
  }

  function DigitChar(d: nat): char
    requires d < 10
  {
    ('0' as int + d) as char
  }

  /** Decimal rendering of a natural number, as `str(n)` gives it. */
  function NatToString(n: nat): (r: string)
    ensures |r| >= 1
    ensures forall i :: 0 <= i < |r| ==> '0' <= r[i] <= '9'
  {
    if n < 10 then [DigitChar(n)] else NatToString(n / 10) + [DigitChar(n % 10)]
  }

  /** `str(i)` for an integer, with a leading minus sign when negative. */
  function IntToString(i: int): string {
    if i < 0 then "-" + NatToString(-i) else NatToString(i)
  }

  /** Python's `sep.join(parts)`. */
  function Join(parts: seq<string>, sep: string): string {
    if parts == [] then ""
    else if |parts| == 1 then parts[0]
    else parts[0] + sep + Join(parts[1..], sep)
  }

  /** Python's `a <= b` on strings: lexicographic by code point. */
  predicate StrLe(a: string, b: string)
    decreases |a|
  {
    if a == [] then true
    else if b == [] then false
    else if a[0] != b[0] then a[0] < b[0]
    else StrLe(a[1..], b[1..])
  }

  lemma {:induction false} StrLeTotal(a: string, b: string)
    ensures StrLe(a, b) || StrLe(b, a)
    decreases |a|
  {
    if a != [] && b != [] && a[0] == b[0] {
      StrLeTotal(a[1..], b[1..]);
    }
  }

  lemma {:induction false} StrLeTransitive(a: string, b: string, c: string)
    requires StrLe(a, b) && StrLe(b, c)
    ensures StrLe(a, c)
    decreases |a|
  {
    if a != [] && b != [] && c != [] && a[0] == b[0] && b[0] == c[0] {
      StrLeTransitive(a[1..], b[1..], c[1..]);
    }
  }
}
