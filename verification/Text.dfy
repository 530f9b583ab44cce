/** The string operations the codecs use: search, split, join, trim and the case-insensitive prefix test. */
module Text {
  predicate OccursAt(s: string, sub: string, i: int) {
    0 <= i && i + |sub| <= |s| && s[i..i + |sub|] == sub
  }

  ghost predicate Occurs(s: string, sub: string) {
    exists i :: OccursAt(s, sub, i)
  }

  // strings.Index, from a position on.
  function IndexFrom(s: string, sub: string, from: nat): (r: int)
    requires from <= |s|
    ensures r >= 0 ==> from <= r && OccursAt(s, sub, r) && forall i | from <= i < r :: !OccursAt(s, sub, i)
    ensures r < 0 ==> r == -1 && forall i | from <= i :: !OccursAt(s, sub, i)
    decreases |s| - from
  {
    if OccursAt(s, sub, from) then from else if from == |s| then -1 else IndexFrom(s, sub, from + 1)
  }

  function Index(s: string, sub: string): (r: int)
    ensures r >= 0 ==> OccursAt(s, sub, r) && forall i | 0 <= i < r :: !OccursAt(s, sub, i)
    ensures r < 0 <==> !Occurs(s, sub)
  {
    IndexFrom(s, sub, 0)
  }

  // strings.Split with a non-empty separator.
  function Split(s: string, sep: string): (parts: seq<string>)
    requires sep != ""
    ensures parts != []
    decreases |s|
  {
    var i := Index(s, sep);
    if i < 0 then [s] else [s[..i]] + Split(s[i + |sep|..], sep)
  }

  function Join(parts: seq<string>, sep: string): string {
    if parts == [] then "" else if |parts| == 1 then parts[0] else parts[0] + sep + Join(parts[1..], sep)
  }

  // The parts that are not empty.
  function NonEmpty(items: seq<string>): seq<string> {
    if items == [] then []
    else
      var rest, p := NonEmpty(items[..|items| - 1]), items[|items| - 1];
      if p == "" then rest else rest + [p]
  }

  function LowerChar(c: char): char {
    if 'A' <= c <= 'Z' then (c as int + 32) as char else c
  }

  function Lower(s: string): (l: string)
    ensures |l| == |s|
  {
    seq(|s|, i requires 0 <= i < |s| => LowerChar(s[i]))
  }

  // HasPrefix ignores case.
  predicate HasPrefix(s: string, prefix: string) {
    |prefix| <= |s| && Lower(s[..|prefix|]) == Lower(prefix)
  }

  predicate IsSpace(c: char) {
    c == ' ' || '\t' <= c <= '\r'
  }

  function TrimLeft(s: string): (t: string)
    ensures |t| <= |s| && t == s[|s| - |t|..]
    ensures t != "" ==> !IsSpace(t[0])
  {
    if s != "" && IsSpace(s[0]) then TrimLeft(s[1..]) else s
  }

  function TrimRight(s: string): (t: string)
    ensures |t| <= |s| && t == s[..|t|]
    ensures t != "" ==> !IsSpace(t[|t| - 1])
  {
    if s != "" && IsSpace(s[|s| - 1]) then TrimRight(s[..|s| - 1]) else s
  }

  // strings.TrimSpace.
  function Trim(s: string): string {
    TrimRight(TrimLeft(s))
  }

  // ---------------------------------------------------------------- lemmas

  /** Splitting and joining again gives the string back. */
  lemma {:induction false} JoinSplit(s: string, sep: string)
    requires sep != ""
    ensures Join(Split(s, sep), sep) == s
    decreases |s|
  {
    var i := Index(s, sep);
    if i >= 0 {
      var rest := Split(s[i + |sep|..], sep);
      JoinSplit(s[i + |sep|..], sep);
      assert ([s[..i]] + rest)[1..] == rest;
      assert s == s[..i] + sep + s[i + |sep|..];
    }
  }

  lemma {:induction false} JoinConcat(a: seq<string>, b: seq<string>, sep: string)
    requires a != [] && b != []
    ensures Join(a + b, sep) == Join(a, sep) + sep + Join(b, sep)
  {
    assert (a + b)[1..] == a[1..] + b;
    if |a| > 1 {
      JoinConcat(a[1..], b, sep);
    } else {
      assert a[1..] + b == b;
    }
  }

  // The first separator of a string that starts with a separator-free part.
  lemma FirstSeparator(a: string, sep: char, b: string)
    requires sep !in a
    ensures Index(a + [sep] + b, [sep]) == |a|
  {
    var s := a + [sep] + b;
    assert OccursAt(s, [sep], |a|);
    forall i | 0 <= i < |a| ensures !OccursAt(s, [sep], i) {
      assert s[i] == a[i];
    }
  }

  lemma SplitFirst(a: string, sep: char, b: string)
    requires sep !in a
    ensures Split(a + [sep] + b, [sep]) == [a] + Split(b, [sep])
  {
    FirstSeparator(a, sep, b);
    var s := a + [sep] + b;
    assert s[|a| + 1..] == b && s[..|a|] == a;
  }

  lemma SplitNone(s: string, sep: char)
    requires sep !in s
    ensures Split(s, [sep]) == [s]
  {
    forall i | 0 <= i < |s| ensures !OccursAt(s, [sep], i) {
      assert s[i] != sep;
    }
  }

  // No part of a split contains the separator.
  lemma {:induction false} SplitParts(s: string, sep: char)
    ensures forall p | p in Split(s, [sep]) :: sep !in p
    decreases |s|
  {
    var i := Index(s, [sep]);
    if i < 0 {
      assert forall k | 0 <= k < |s| && s[k] == sep :: OccursAt(s, [sep], k);
    } else {
      SplitParts(s[i + 1..], sep);
      forall k | 0 <= k < i ensures s[k] != sep {
        assert !OccursAt(s, [sep], k);
      }
    }
  }

  lemma CutAtFirst(a: string, sep: char) returns (head: string, tail: string)
    requires sep in a
    ensures a == head + [sep] + tail && sep !in head
  {
    if a[0] == sep {
      head, tail := "", a[1..];
    } else {
      head, tail := CutAtFirst(a[1..], sep);
      head := [a[0]] + head;
    }
  }

  /** Splitting a concatenation at a separator splits both sides. */
  lemma {:induction false} SplitConcat(a: string, sep: char, b: string)
    ensures Split(a + [sep] + b, [sep]) == Split(a, [sep]) + Split(b, [sep])
    decreases |a|
  {
    hide Split;
    if sep !in a {
      SplitNone(a, sep);
      SplitFirst(a, sep, b);
    } else {
      var head, tail := CutAtFirst(a, sep);
      SplitFirst(head, sep, tail);
      SplitFirst(head, sep, tail + [sep] + b);
      assert a + [sep] + b == head + [sep] + (tail + [sep] + b);
      SplitConcat(tail, sep, b);
    }
  }

  lemma NonEmptySnoc(items: seq<string>, p: string)
    ensures NonEmpty(items + [p]) == if p == "" then NonEmpty(items) else NonEmpty(items) + [p]
  {
    assert (items + [p])[..|items|] == items;
  }

  lemma {:induction false} NonEmptyConcat(a: seq<string>, b: seq<string>)
    ensures NonEmpty(a + b) == NonEmpty(a) + NonEmpty(b)
  {
    if b == [] {
      assert a + b == a;
    } else {
      NonEmptyConcat(a, b[..|b| - 1]);
      assert (a + b)[..|a + b| - 1] == a + b[..|b| - 1];
    }
  }

  /** Splitting a concatenation splits both sides, with the last part of one glued to the first part of the other. */
  lemma {:induction false} SplitAppend(a: string, sep: char, b: string)
    ensures var p, q := Split(a, [sep]), Split(b, [sep]);
            Split(a + b, [sep]) == p[..|p| - 1] + [p[|p| - 1] + q[0]] + q[1..]
    decreases |a|
  {
    hide Split;
    if sep !in a {
      SplitNone(a, sep);
      if sep !in b {
        SplitNone(b, sep);
        SplitNone(a + b, sep);
      } else {
        var head, tail := CutAtFirst(b, sep);
        SplitFirst(head, sep, tail);
        SplitFirst(a + head, sep, tail);
        assert a + b == (a + head) + [sep] + tail;
      }
    } else {
      var head, tail := CutAtFirst(a, sep);
      SplitFirst(head, sep, tail);
      SplitFirst(head, sep, tail + b);
      assert a + b == head + [sep] + (tail + b);
      SplitAppend(tail, sep, b);
    }
  }

  /** Joining parts without the separator and splitting again gives the parts back. */
  lemma {:induction false} SplitJoin(parts: seq<string>, sep: char)
    requires parts != [] && forall i | 0 <= i < |parts| :: sep !in parts[i]
    ensures Split(Join(parts, [sep]), [sep]) == parts
  {
    hide Split;
    if |parts| == 1 {
      SplitNone(parts[0], sep);
    } else {
      SplitJoin(parts[1..], sep);
      SplitFirst(parts[0], sep, Join(parts[1..], [sep]));
    }
  }

  // The same letter in either case, or the same character.
  predicate SameLetter(c: char, d: char) {
    || c == d
    || ('A' <= c <= 'Z' && d as int == c as int + 32)
    || ('A' <= d <= 'Z' && c as int == d as int + 32)
  }

  /** The prefix test ignores the case of ASCII letters, and nothing else. */
  lemma PrefixMeaning(s: string, prefix: string)
    ensures HasPrefix(s, prefix) <==> |prefix| <= |s| && forall i | 0 <= i < |prefix| :: SameLetter(s[i], prefix[i])
  {
    if |prefix| <= |s| {
      var a, b := Lower(s[..|prefix|]), Lower(prefix);
      assert forall i | 0 <= i < |prefix| :: a[i] == LowerChar(s[i]) && b[i] == LowerChar(prefix[i]);
      assert a == b <==> forall i | 0 <= i < |prefix| :: a[i] == b[i];
    }
  }

  // Space, tab, newline, vertical tab, form feed and carriage return.
  const SPACES := [' ', '\t', '\n', 11 as char, 12 as char, '\r']

  lemma SpaceMeaning(c: char)
    ensures IsSpace(c) <==> c in SPACES
  {
  }

  /** Trimming removes the white space at both ends, all of it, and nothing else. */
  lemma TrimMeaning(s: string) returns (l: nat)
    ensures var t := Trim(s);
            && l + |t| <= |s| && s[l..l + |t|] == t
            && (forall i | 0 <= i < l || l + |t| <= i < |s| :: s[i] in SPACES)
            && (t != "" ==> t[0] !in SPACES && t[|t| - 1] !in SPACES)
  {
    LeftTrimmed(s);
    RightTrimmed(TrimLeft(s));
    hide SPACES, IsSpace;
    var left, t := TrimLeft(s), Trim(s);
    l := |s| - |left|;
    assert left == s[l..] && t == left[..|t|];
    assert forall i | |t| <= i < |left| :: left[i] == s[l + i];
    if t != "" {
      SpaceMeaning(t[0]);
      SpaceMeaning(t[|t| - 1]);
      assert t[0] == left[0];
    }
  }

  lemma {:induction false} LeftTrimmed(s: string)
    ensures forall i | 0 <= i < |s| - |TrimLeft(s)| :: s[i] in SPACES
  {
    hide SPACES, IsSpace;
    if s != "" && IsSpace(s[0]) {
      SpaceMeaning(s[0]);
      LeftTrimmed(s[1..]);
    }
  }

  lemma {:induction false} RightTrimmed(s: string)
    ensures forall i | |TrimRight(s)| <= i < |s| :: s[i] in SPACES
  {
    hide SPACES, IsSpace;
    if s != "" && IsSpace(s[|s| - 1]) {
      SpaceMeaning(s[|s| - 1]);
      RightTrimmed(s[..|s| - 1]);
    }
  }
}
