/**
 * Query strings: comma lists, and the application/x-www-form-urlencoded form that URLSearchParams writes and the
 * router reads, for ASCII text.
 */
module UrlCodec {
  import opened Options

  // ----------------------------------------------------------------------------------------
  // Splitting and joining
  // ----------------------------------------------------------------------------------------

  function SplitFrom(s: string, sep: char, word: string): (words: seq<string>)
    ensures words != []
  {
    if s == [] then [word]
    else if s[0] == sep then [word] + SplitFrom(s[1..], sep, [])
    else SplitFrom(s[1..], sep, word + [s[0]])
  }

  function Split(s: string, sep: char): (words: seq<string>)
    ensures words != []
  {
    SplitFrom(s, sep, [])
  }

  function Join(words: seq<string>, sep: char): string {
    if words == [] then [] else if |words| == 1 then words[0] else words[0] + [sep] + Join(words[1..], sep)
  }

  predicate Lacks(s: string, c: char) {
    forall i :: 0 <= i < |s| ==> s[i] != c
  }

  predicate AllLack(words: seq<string>, c: char) {
    forall i :: 0 <= i < |words| ==> Lacks(words[i], c)
  }

  lemma {:induction false} SplitWord(word: string, rest: string, sep: char, before: string)
    requires Lacks(word, sep)
    ensures SplitFrom(word + rest, sep, before) == SplitFrom(rest, sep, before + word)
    decreases |word|
  {
    if word == [] {
      assert word + rest == rest && before + word == before;
    } else {
      assert (word + rest)[0] == word[0] && (word + rest)[1..] == word[1..] + rest;
      SplitWord(word[1..], rest, sep, before + [word[0]]);
      assert before + [word[0]] + word[1..] == before + word;
    }
  }

  /** Splitting what was joined gives the words back. */
  lemma {:induction false} SplitJoined(words: seq<string>, sep: char)
    requires words != [] && AllLack(words, sep)
    ensures Split(Join(words, sep), sep) == words
    decreases |words|
  {
    if |words| == 1 {
      assert words[0] + [] == words[0];
      SplitWord(words[0], [], sep, []);
      assert [] + words[0] == words[0];
      assert [words[0]] == words;
    } else {
      var rest := [sep] + Join(words[1..], sep);
      assert words[0] + [sep] + Join(words[1..], sep) == words[0] + rest;
      SplitWord(words[0], rest, sep, []);
      assert [] + words[0] == words[0];
      assert rest[0] == sep && rest[1..] == Join(words[1..], sep);
      SplitJoined(words[1..], sep);
      assert [words[0]] + words[1..] == words;
    }
  }

  /** Splitting at a separator splits what is before it and what is after it. */
  lemma {:induction false} SplitAt(s: string, rest: string, sep: char, before: string)
    ensures SplitFrom(s + [sep] + rest, sep, before) == SplitFrom(s, sep, before) + Split(rest, sep)
    decreases |s|
  {
    if s == [] {
      assert (s + [sep] + rest)[1..] == rest;
    } else {
      assert (s + [sep] + rest)[0] == s[0] && (s + [sep] + rest)[1..] == s[1..] + [sep] + rest;
      SplitAt(s[1..], rest, sep, if s[0] == sep then [] else before + [s[0]]);
    }
  }

  /** The members of repeated lists. */
  function Members(lists: seq<string>, sep: char): seq<string> {
    if lists == [] then [] else Split(lists[0], sep) + Members(lists[1..], sep)
  }

  lemma {:induction false} SplitJoinedLists(lists: seq<string>, sep: char)
    requires lists != []
    ensures Split(Join(lists, sep), sep) == Members(lists, sep)
    decreases |lists|
  {
    if |lists| > 1 {
      SplitAt(lists[0], Join(lists[1..], sep), sep, []);
      SplitJoinedLists(lists[1..], sep);
    } else {
      assert Members(lists[1..], sep) == [];
    }
  }

  // ----------------------------------------------------------------------------------------
  // Percent encoding
  // ----------------------------------------------------------------------------------------

  predicate IsPlain(c: char) {
    'a' <= c <= 'z' || 'A' <= c <= 'Z' || '0' <= c <= '9' || c == '*' || c == '-' || c == '.' || c == '_'
  }

  predicate IsAscii(s: string) {
    forall i :: 0 <= i < |s| ==> s[i] < 128 as char
  }

  function HexDigit(n: int): char
    requires 0 <= n < 16
  {
    if n < 10 then '0' + n as char else 'A' + (n - 10) as char
  }

  function HexValue(c: char): Option<int> {
    if '0' <= c <= '9' then Some((c - '0') as int)
    else if 'A' <= c <= 'F' then Some((c - 'A') as int + 10)
    else if 'a' <= c <= 'f' then Some((c - 'a') as int + 10)
    else None
  }

  function EncodedChar(c: char): string
    requires c < 128 as char
  {
    if IsPlain(c) then [c] else if c == ' ' then "+"
    else ['%', HexDigit(c as int / 16), HexDigit(c as int % 16)]
  }

  function Encoded(s: string): string
    requires IsAscii(s)
  {
    if s == [] then [] else EncodedChar(s[0]) + Encoded(s[1..])
  }

  function Decoded(s: string): string {
    if s == [] then []
    else if s[0] == '+' then [' '] + Decoded(s[1..])
    else if s[0] == '%' && |s| >= 3 && HexValue(s[1]).Some? && HexValue(s[2]).Some? then
      [(16 * HexValue(s[1]).value + HexValue(s[2]).value) as char] + Decoded(s[3..])
    else [s[0]] + Decoded(s[1..])
  }

  /** A digit's place among the hexadecimal digits, a letter counting in either case. */
  lemma HexIs(c: char, n: int)
    ensures HexValue(c) == Some(n) <==> 0 <= n < 16 && (c == "0123456789ABCDEF"[n] || c == "0123456789abcdef"[n])
  {
  }

  /**
   * A character is written as itself exactly when it is a letter, a digit or one of four marks, and a space as a plus; any
   * other as its code in two hexadecimal digits, which are read in either case.
   */
  lemma CharIsWritten(c: char, high: char, low: char, rest: string)
    requires c < 128 as char
    ensures var n := c as int;
      EncodedChar(c) == (if 48 <= n <= 57 || 65 <= n <= 90 || 97 <= n <= 122 || c in {'*', '-', '.', '_'} then [c]
                         else if n == 32 then "+" else ['%', "0123456789ABCDEF"[n / 16], "0123456789ABCDEF"[n % 16]])
    ensures HexValue(high) == Some(c as int / 16) && HexValue(low) == Some(c as int % 16)
        ==> Decoded(['%', high, low] + rest) == [c] + Decoded(rest)
  {
    HexIs(HexDigit(c as int / 16), c as int / 16);
    HexIs(HexDigit(c as int % 16), c as int % 16);
    assert (['%', high, low] + rest)[3..] == rest;
  }

  lemma HexReadsBack(n: int)
    requires 0 <= n < 16
    ensures HexValue(HexDigit(n)) == Some(n)
  {
  }

  lemma DecodedChar(c: char, rest: string)
    requires c < 128 as char
    ensures Decoded(EncodedChar(c) + rest) == [c] + Decoded(rest)
  {
    var s := EncodedChar(c) + rest;
    if IsPlain(c) || c == ' ' {
      assert s[1..] == rest;
    } else {
      HexReadsBack(c as int / 16);
      HexReadsBack(c as int % 16);
      assert s[3..] == rest;
    }
  }

  lemma {:induction false} DecodedEncoded(s: string)
    requires IsAscii(s)
    ensures Decoded(Encoded(s)) == s
  {
    if s != [] {
      DecodedChar(s[0], Encoded(s[1..]));
      DecodedEncoded(s[1..]);
    }
  }

  lemma {:induction false} EncodedLacks(s: string, c: char)
    requires IsAscii(s) && (c == '&' || c == '=')
    ensures Lacks(Encoded(s), c)
  {
    if s != [] {
      EncodedLacks(s[1..], c);
    }
  }

  // ----------------------------------------------------------------------------------------
  // Queries
  // ----------------------------------------------------------------------------------------

  datatype Pair = Pair(key: string, value: string)

  predicate IsAsciiPair(p: Pair) {
    IsAscii(p.key) && IsAscii(p.value)
  }

  predicate AreAscii(pairs: seq<Pair>) {
    forall i :: 0 <= i < |pairs| ==> IsAsciiPair(pairs[i])
  }

  function PairText(p: Pair): string
    requires IsAsciiPair(p)
  {
    Encoded(p.key) + "=" + Encoded(p.value)
  }

  function PairTexts(pairs: seq<Pair>): (texts: seq<string>)
    requires AreAscii(pairs)
    ensures |texts| == |pairs|
  {
    if pairs == [] then [] else [PairText(pairs[0])] + PairTexts(pairs[1..])
  }

  function QueryText(pairs: seq<Pair>): string
    requires AreAscii(pairs)
  {
    Join(PairTexts(pairs), '&')
  }

  function ParsedPair(text: string): Pair {
    var parts := Split(text, '=');
    Pair(Decoded(parts[0]), Decoded(Join(parts[1..], '=')))
  }

  function ParsedPairs(texts: seq<string>): seq<Pair> {
    if texts == [] then []
    else if texts[0] == [] then ParsedPairs(texts[1..])
    else [ParsedPair(texts[0])] + ParsedPairs(texts[1..])
  }

  function ParsedQuery(query: string): seq<Pair> {
    ParsedPairs(Split(query, '&'))
  }

  lemma PairReadsBack(p: Pair)
    requires IsAsciiPair(p)
    ensures ParsedPair(PairText(p)) == p && PairText(p) != [] && Lacks(PairText(p), '&')
  {
    EncodedLacks(p.key, '=');
    EncodedLacks(p.value, '=');
    EncodedLacks(p.key, '&');
    EncodedLacks(p.value, '&');
    var parts := [Encoded(p.key), Encoded(p.value)];
    assert parts[1..] == [Encoded(p.value)];
    assert PairText(p) == Join(parts, '=');
    SplitJoined(parts, '=');
    DecodedEncoded(p.key);
    DecodedEncoded(p.value);
  }

  lemma {:induction false} PairsReadBack(pairs: seq<Pair>)
    requires AreAscii(pairs)
    ensures ParsedPairs(PairTexts(pairs)) == pairs && AllLack(PairTexts(pairs), '&')
  {
    if pairs != [] {
      PairReadsBack(pairs[0]);
      PairsReadBack(pairs[1..]);
    }
  }

  /** Reading a written query gives its pairs back, whatever ASCII characters they hold. */
  lemma QueryReadsBack(pairs: seq<Pair>)
    requires AreAscii(pairs)
    ensures ParsedQuery(QueryText(pairs)) == pairs
  {
    PairsReadBack(pairs);
    if pairs != [] {
      SplitJoined(PairTexts(pairs), '&');
    }
  }
}
