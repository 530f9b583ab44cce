/** Percent-encoding of a query parameter: section 2.1 of RFC 3986, with '+' for a space. Characters stand for bytes. */
module Percent {
  import opened Options
  import opened Text

  predicate Bytes(s: string) {
    forall i | 0 <= i < |s| :: s[i] < 256 as char
  }

  predicate Unreserved(c: char) {
    'a' <= c <= 'z' || 'A' <= c <= 'Z' || '0' <= c <= '9' || c == '-' || c == '_' || c == '.' || c == '~'
  }

  function Hex(d: nat): char
    requires d < 16
  {
    if d < 10 then ('0' as int + d) as char else ('A' as int + d - 10) as char
  }

  predicate IsHex(c: char) {
    '0' <= c <= '9' || 'a' <= c <= 'f' || 'A' <= c <= 'F'
  }

  function HexValue(c: char): (d: nat)
    requires IsHex(c)
    ensures d < 16
  {
    if '0' <= c <= '9' then c as int - '0' as int
    else if 'a' <= c <= 'f' then c as int - 'a' as int + 10
    else c as int - 'A' as int + 10
  }

  function EscapeChar(c: char): string
    requires c < 256 as char
  {
    if Unreserved(c) then [c] else if c == ' ' then "+" else ['%', Hex(c as int / 16), Hex(c as int % 16)]
  }

  // url.QueryEscape.
  function QueryEscape(s: string): string
    requires Bytes(s)
  {
    if s == "" then "" else EscapeChar(s[0]) + QueryEscape(s[1..])
  }

  // url.QueryUnescape, which fails at a '%' without two hexadecimal digits.
  function QueryUnescape(s: string): Option<string> {
    if s == "" then Some("")
    else if s[0] != '%' then Before(if s[0] == '+' then ' ' else s[0], QueryUnescape(s[1..]))
    else if |s| >= 3 && IsHex(s[1]) && IsHex(s[2]) then
      Before((16 * HexValue(s[1]) + HexValue(s[2])) as char, QueryUnescape(s[3..]))
    else None
  }

  function Before(c: char, rest: Option<string>): Option<string> {
    if rest.Some? then Some([c] + rest.value) else None
  }

  /** Whatever was escaped is read back. */
  lemma {:induction false} EscapeRoundTrip(s: string)
    requires Bytes(s)
    ensures QueryUnescape(QueryEscape(s)) == Some(s)
  {
    if s != "" {
      EscapeRoundTrip(s[1..]);
      hide EscapeChar, QueryUnescape;
      EscapeOne(s[0], QueryEscape(s[1..]));
      assert s == [s[0]] + s[1..];
    }
  }

  lemma EscapeOne(c: char, rest: string)
    requires c < 256 as char
    ensures QueryUnescape(EscapeChar(c) + rest) == Before(c, QueryUnescape(rest))
  {
    var e := EscapeChar(c);
    assert (e + rest)[|e|..] == rest;
  }

  predicate EscapedChar(c: char) {
    Unreserved(c) || c == '%' || c == '+'
  }

  /** What is escaped holds no separator, no '=' and no white space. */
  lemma {:induction false} EscapedChars(s: string)
    requires Bytes(s)
    ensures forall i | 0 <= i < |QueryEscape(s)| :: EscapedChar(QueryEscape(s)[i])
  {
    if s != "" {
      EscapedChars(s[1..]);
    }
  }

  lemma {:induction false} UnescapedBytes(s: string)
    requires Bytes(s) && QueryUnescape(s).Some?
    ensures Bytes(QueryUnescape(s).value)
  {
    if s != "" {
      if s[0] != '%' {
        UnescapedBytes(s[1..]);
      } else {
        UnescapedBytes(s[3..]);
      }
    }
  }

  /** Escaping neither makes nor hides the word that marks an insert. */
  lemma EscapeKeepsWord(s: string, word: string)
    requires Bytes(s) && forall i | 0 <= i < |word| :: 'a' <= word[i] <= 'z'
    ensures HasPrefix(QueryEscape(s), word) <==> HasPrefix(s, word)
    decreases word
  {
    if word != "" && s != "" {
      var c, e, rest := s[0], EscapeChar(s[0]), QueryEscape(s[1..]);
      EscapeKeepsWord(s[1..], word[1..]);
      WordPrefix(s, word);
      WordPrefix(e + rest, word);
      if Unreserved(c) {
        assert (e + rest)[1..] == rest;
      }
    }
  }

  // The case-insensitive prefix test, one letter at a time.
  lemma WordPrefix(s: string, word: string)
    requires s != "" && word != ""
    ensures HasPrefix(s, word) <==> LowerChar(s[0]) == LowerChar(word[0]) && HasPrefix(s[1..], word[1..])
  {
    if |word| <= |s| {
      var a, b := s[..|word|], word;
      assert s[1..][..|word| - 1] == a[1..];
      if Lower(a) == Lower(b) {
        assert Lower(a)[0] == Lower(b)[0];
        assert forall i | 0 <= i < |b| - 1 :: Lower(a[1..])[i] == Lower(a)[i + 1];
        assert Lower(a[1..]) == Lower(b[1..]);
      }
      if LowerChar(s[0]) == LowerChar(word[0]) && Lower(a[1..]) == Lower(b[1..]) {
        forall i | 0 <= i < |b| ensures Lower(a)[i] == Lower(b)[i] {
          if i > 0 {
            assert Lower(a[1..])[i - 1] == Lower(b[1..])[i - 1];
          }
        }
      }
    }
  }

  // A '%' here has two hexadecimal digits behind it.
  predicate Complete(s: string, i: nat)
    requires i < |s|
  {
    s[i] == '%' ==> i + 2 < |s| && IsHex(s[i + 1]) && IsHex(s[i + 2])
  }

  lemma CompleteTail(s: string, n: nat)
    requires n <= |s|
    ensures (forall i | 0 <= i < |s[n..]| :: Complete(s[n..], i)) <==> forall i | n <= i < |s| :: Complete(s, i)
  {
    var rest := s[n..];
    assert forall i | 0 <= i < |rest| :: rest[i] == s[n + i];
    if forall i | 0 <= i < |rest| :: Complete(rest, i) {
      forall i | n <= i < |s| ensures Complete(s, i) {
        assert Complete(rest, i - n);
      }
    }
    if forall i | n <= i < |s| :: Complete(s, i) {
      forall i | 0 <= i < |rest| ensures Complete(rest, i) {
        assert Complete(s, n + i);
      }
    }
  }

  /** A string unescapes if and only if every '%' in it has two hexadecimal digits behind it. */
  lemma {:induction false} UnescapesExactly(s: string)
    ensures QueryUnescape(s).Some? <==> forall i | 0 <= i < |s| :: Complete(s, i)
  {
    if s != "" {
      if !Complete(s, 0) {
        assert QueryUnescape(s).None?;
      } else {
        var n := if s[0] == '%' then 3 else 1;
        UnescapesExactly(s[n..]);
        CompleteTail(s, n);
        assert forall i | 0 <= i < n :: Complete(s, i);
      }
    }
  }

  /** What holds neither '%' nor '+' is read as it stands. */
  lemma {:induction false} PlainStays(s: string)
    requires '%' !in s && '+' !in s
    ensures QueryUnescape(s) == Some(s)
  {
    if s != "" {
      PlainStays(s[1..]);
      assert s == [s[0]] + s[1..];
    }
  }

  // Hexadecimal digits count in both cases.
  lemma DigitsInBothCases(d: nat)
    requires d < 16
    ensures IsHex(Hex(d)) && HexValue(Hex(d)) == d && IsHex(LowerChar(Hex(d))) && HexValue(LowerChar(Hex(d))) == d
    ensures Hex(d) == "0123456789ABCDEF"[d] && LowerChar(Hex(d)) == "0123456789abcdef"[d]
  {
  }
}
