/** Cutting an INSERT statement into its head, which the batch shares, and its data. */
module Statement {
  import opened Options
  import opened Text
  import opened Percent

  datatype Parts = Parts(prefix: string, content: string)

  // What ends a word after FORMAT.
  predicate IsStop(c: char) {
    c == ' ' || c == '\n' || c == ';'
  }

  // White space as a regular expression understands it: a vertical tab is not.
  predicate IsBlank(c: char) {
    IsSpace(c) && c != 11 as char
  }

  function SkipStops(s: string, from: nat): (i: nat)
    requires from <= |s|
    ensures from <= i <= |s| && forall j | from <= j < i :: IsStop(s[j])
    ensures i < |s| ==> !IsStop(s[i])
    decreases |s| - from
  {
    if from < |s| && IsStop(s[from]) then SkipStops(s, from + 1) else from
  }

  function FindStop(s: string, from: nat): (i: nat)
    requires from <= |s|
    ensures from <= i <= |s| && forall j | from <= j < i :: !IsStop(s[j])
    ensures i < |s| ==> IsStop(s[i])
    decreases |s| - from
  {
    if from < |s| && !IsStop(s[from]) then FindStop(s, from + 1) else from
  }

  // The end of the word that follows: one past the character that ends it, if one does.
  function WordEnd(s: string, from: nat): (end: Option<nat>)
    requires from <= |s|
    ensures end.Some? ==> from < end.value <= |s|
  {
    var stop := FindStop(s, SkipStops(s, from));
    if stop < |s| then Some(stop + 1) else None
  }

  function SkipBlanks(s: string, from: nat): (i: nat)
    requires from <= |s|
    ensures from <= i <= |s| && forall j | from <= j < i :: IsBlank(s[j])
    ensures i < |s| ==> !IsBlank(s[i])
    decreases |s| - from
  {
    if from < |s| && IsBlank(s[from]) then SkipBlanks(s, from + 1) else from
  }

  function FindBlank(s: string, from: nat): (i: nat)
    requires from <= |s|
    ensures from <= i <= |s| && forall j | from <= j < i :: !IsBlank(s[j])
    ensures i < |s| ==> IsBlank(s[i])
    decreases |s| - from
  {
    if from < |s| && !IsBlank(s[from]) then FindBlank(s, from + 1) else from
  }

  // The pattern (?i)format\s\S+(\s+): the end of the blanks after the format's name.
  function FormatEnd(s: string, from: nat): (end: Option<nat>)
    requires from <= |s|
    ensures end.Some? ==> from + 7 < end.value <= |s|
    decreases |s| - from
  {
    if HasPrefix(s[from..], "format") && from + 7 < |s| && IsBlank(s[from + 6]) && !IsBlank(s[from + 7])
       && FindBlank(s, from + 7) < |s| then Some(SkipBlanks(s, FindBlank(s, from + 7)))
    else if from < |s| then FormatEnd(s, from + 1)
    else None
  }

  // The pattern (?i)format\s(\S+): the format's name, or "values" when there is none.
  function FormatName(s: string, from: nat): string
    requires from <= |s|
    decreases |s| - from
  {
    if HasPrefix(s[from..], "format") && from + 7 < |s| && IsBlank(s[from + 6]) && !IsBlank(s[from + 7]) then
      s[from + 7..FindBlank(s, from + 7)]
    else if from < |s| then FormatName(s, from + 1)
    else "values"
  }

  // Collector.getFormat.
  function GetFormat(query: string): string {
    Trim(FormatName(query, 0))
  }

  // The pattern (?i)\svalues\s.
  function ValuesEnd(s: string, from: nat): (end: Option<nat>)
    requires from <= |s|
    ensures end.Some? ==> from + 7 < end.value <= |s|
    decreases |s| - from
  {
    if from + 7 < |s| && IsBlank(s[from]) && HasPrefix(s[from + 1..], "values") && IsBlank(s[from + 7]) then
      Some(from + 8)
    else if from < |s| then ValuesEnd(s, from + 1)
    else None
  }

  function ValuesAt(s: string): int {
    var k := Index(s, "VALUES");
    if k == -1 then Index(s, "values") else k
  }

  // A FORMAT before the VALUES decides.
  predicate FormatFirst(s: string) {
    0 <= Index(s, "FORMAT") < ValuesAt(s)
  }

  // It decides, but the format's name has no end.
  predicate Unterminated(s: string) {
    FormatFirst(s) && WordEnd(s, Index(s, "FORMAT") + 7).None?
  }

  // The place of the cut.
  function CutAt(s: string): (cut: nat)
    requires !Unterminated(s)
    ensures cut <= |s|
  {
    var k := ValuesAt(s);
    if FormatFirst(s) then WordEnd(s, Index(s, "FORMAT") + 7).value
    else if k >= 0 then k + 6
    else
      var f, v := FormatEnd(s, 0), ValuesEnd(s, 0);
      if f.Some? then f.value else if v.Some? then v.value else |s|
  }

  function Parsed(s: string): Parts {
    if Unterminated(s) then Parts("", "")
    else
      var cut := CutAt(s);
      if !FormatFirst(s) && ValuesAt(s) >= 0 then Parts(Trim(s[..cut]), Trim(s[cut..])) else Parts(s[..cut], s[cut..])
  }

  lemma ParsedBytes(s: string)
    requires Bytes(s)
    ensures Bytes(Trim(Parsed(s).prefix))
  {
    hide Unterminated, FormatFirst, ValuesAt, CutAt, Trim;
    if Unterminated(s) {
      TrimSlice("");
    } else {
      var head := s[..CutAt(s)];
      TrimSlice(head);
      TrimSlice(Trim(head));
    }
  }

  // Collector.Parse.
  method Parse(text: string) returns (prefix: string, content: string)
    ensures Parts(prefix, content) == Parsed(text)
  {
    hide FormatEnd, ValuesEnd, Trim, Bytes, HasPrefix, Index, IsStop;
    prefix, content := "", "";
    var i, k := Index(text, "FORMAT"), Index(text, "VALUES");
    if k == -1 {
      k := Index(text, "values");
    }
    if 0 <= i < k {
      var w, off, c := false, -1, i + 7;
      while c < |text| && off < 0
        invariant i + 7 <= c <= |text| && (off >= 0 ==> off == c + 1 && c < |text|)
        invariant off < 0 && !w ==> SkipStops(text, i + 7) == SkipStops(text, c)
        invariant off < 0 && w ==> FindStop(text, SkipStops(text, i + 7)) == FindStop(text, c)
        invariant off >= 0 ==> FindStop(text, SkipStops(text, i + 7)) == c
        decreases |text| - c, if off < 0 then 1 else 0
      {
        if !w && !IsStop(text[c]) {
          w := true;
        }
        if w && IsStop(text[c]) {
          off := c + 1;
        } else {
          c := c + 1;
        }
      }
      if off >= 0 {
        prefix, content := text[..off], text[off..];
      }
    } else if k >= 0 {
      prefix, content := Trim(text[..k + 6]), Trim(text[k + 6..]);
    } else {
      var f, v := FormatEnd(text, 0), ValuesEnd(text, 0);
      if f.Some? {
        prefix, content := text[..f.value], text[f.value..];
      } else if v.Some? {
        prefix, content := text[..v.value], text[v.value..];
      } else {
        prefix := text;
      }
    }
  }

  // ---------------------------------------------------------------- where the cut is

  // The word FORMAT, in any case, a blank, and the first character of a name.
  predicate FormatAt(s: string, i: nat) {
    i + 7 < |s| && HasPrefix(s[i..], "format") && IsBlank(s[i + 6]) && !IsBlank(s[i + 7])
  }

  // And a name up to here.
  predicate NamedAt(s: string, i: nat, end: nat) {
    && FormatAt(s, i) && i + 7 < end <= |s|
    && (forall j | i + 7 <= j < end :: !IsBlank(s[j])) && (end < |s| ==> IsBlank(s[end]))
  }

  // And the blanks behind it up to here.
  predicate BlanksTo(s: string, from: nat, end: nat) {
    && from < end <= |s| && (forall j | from <= j < end :: IsBlank(s[j])) && (end < |s| ==> !IsBlank(s[end]))
  }

  // The word VALUES, in any case, between two blanks.
  predicate BlankValuesAt(s: string, i: nat) {
    i + 7 < |s| && IsBlank(s[i]) && HasPrefix(s[i + 1..], "values") && IsBlank(s[i + 7])
  }

  lemma {:induction false} FormatEndMeaning(s: string, from: nat) returns (i: nat, end: nat)
    requires from <= |s|
    ensures FormatEnd(s, from).Some? ==>
              && from <= i && NamedAt(s, i, end) && BlanksTo(s, end, FormatEnd(s, from).value)
              && forall k: nat, e: nat | from <= k < i && NamedAt(s, k, e) :: e == |s|
    ensures FormatEnd(s, from).None? ==> forall k: nat, e: nat | from <= k && NamedAt(s, k, e) :: e == |s|
    decreases |s| - from
  {
    if from == |s| {
      i, end := from, from;
    } else {
      var e := if from + 7 < |s| then FindBlank(s, from + 7) else |s|;
      if FormatAt(s, from) && e < |s| {
        i, end := from, e;
      } else {
        i, end := FormatEndMeaning(s, from + 1);
        if FormatAt(s, from) {
          NameEnds(s, from);
        }
      }
    }
  }

  lemma NameEnds(s: string, i: nat)
    requires FormatAt(s, i)
    ensures NamedAt(s, i, FindBlank(s, i + 7)) && forall e: nat | NamedAt(s, i, e) :: e == FindBlank(s, i + 7)
  {
    hide HasPrefix, IsBlank;
    var b := FindBlank(s, i + 7);
    assert forall e: nat | NamedAt(s, i, e) :: e == b;
  }

  lemma {:induction false} ValuesEndMeaning(s: string, from: nat) returns (i: nat)
    requires from <= |s|
    ensures ValuesEnd(s, from).Some? ==>
              && from <= i && BlankValuesAt(s, i) && ValuesEnd(s, from).value == i + 8
              && forall k: nat | from <= k < i :: !BlankValuesAt(s, k)
    ensures ValuesEnd(s, from).None? ==> forall k: nat | from <= k :: !BlankValuesAt(s, k)
    decreases |s| - from
  {
    i := from;
    if from < |s| && !BlankValuesAt(s, from) {
      i := ValuesEndMeaning(s, from + 1);
    }
  }

  /**
   Where a statement that has VALUES is cut: behind the first one, when no FORMAT comes before it; and then both parts
   are trimmed.
   */
  lemma CutBehindValues(s: string, k: nat)
    requires k == Index(s, if Occurs(s, "VALUES") then "VALUES" else "values")
    requires !(0 <= Index(s, "FORMAT") < k)
    ensures Parsed(s) == Parts(Trim(s[..k + 6]), Trim(s[k + 6..]))
    ensures s[k..k + 6] == "VALUES" || s[k..k + 6] == "values"
  {
    hide Trim, WordEnd, FormatEnd, ValuesEnd;
  }

  /**
   Where it is cut when a FORMAT comes before the VALUES: behind the one character, a space, a newline or a semicolon,
   that ends the word which follows.
   */
  lemma CutBehindName(s: string, name: nat, cut: nat)
    requires FormatFirst(s) && Index(s, "FORMAT") + 7 <= name < cut - 1 < |s|
    requires forall j | Index(s, "FORMAT") + 7 <= j < name :: s[j] in [' ', '\n', ';']
    requires (forall j | name <= j < cut - 1 :: s[j] !in [' ', '\n', ';']) && s[cut - 1] in [' ', '\n', ';']
    ensures Parsed(s) == Parts(s[..cut], s[cut..])
  {
    hide Trim, FormatEnd, ValuesEnd, IsStop, Index, FormatFirst;
    var from := Index(s, "FORMAT") + 7;
    StopMeaning();
    FirstFormat(s);
    SkipsTo(s, from, name);
    FindsAt(s, name, cut - 1);
  }

  lemma StopMeaning()
    ensures forall c :: IsStop(c) <==> c in [' ', '\n', ';']
    ensures forall c :: IsBlank(c) <==> c in [' ', '\t', '\n', 12 as char, '\r']
  {
  }

  lemma {:induction false} SkipsTo(s: string, from: nat, i: nat)
    requires from <= i < |s| && (forall j | from <= j < i :: IsStop(s[j])) && !IsStop(s[i])
    ensures SkipStops(s, from) == i
    decreases i - from
  {
    if from < i {
      SkipsTo(s, from + 1, i);
    }
  }

  lemma {:induction false} FindsAt(s: string, from: nat, i: nat)
    requires from <= i < |s| && (forall j | from <= j < i :: !IsStop(s[j])) && IsStop(s[i])
    ensures FindStop(s, from) == i
    decreases i - from
  {
    if from < i {
      FindsAt(s, from + 1, i);
    }
  }

  lemma FirstFormat(s: string)
    requires FormatFirst(s)
    ensures 0 <= Index(s, "FORMAT") && Index(s, "FORMAT") + 7 <= |s|
  {
    var i, k := Index(s, "FORMAT"), ValuesAt(s);
    FirstChar(s, "FORMAT", i);
    assert s[i + 5] == s[i..i + 6][5] == 'T';
    FirstChar(s, if Index(s, "VALUES") == -1 then "values" else "VALUES", k);
    assert k + 6 <= |s|;
  }

  /**
   Where it is cut when VALUES is spelled in neither way: behind the blanks that follow the first FORMAT with a name and
   blanks behind it, in any case; without one, behind the first VALUES between two blanks, in any case; and otherwise
   nowhere, so that all of it is the head.
   */
  lemma CutElsewhere(s: string, i: nat, end: nat, cut: nat)
    requires !Occurs(s, "VALUES") && !Occurs(s, "values")
    ensures NamedAt(s, i, end) && BlanksTo(s, end, cut)
            && (forall k: nat, e: nat | k < i && NamedAt(s, k, e) :: e == |s|) ==>
              Parsed(s) == Parts(s[..cut], s[cut..])
    ensures (forall k: nat, e: nat | NamedAt(s, k, e) :: e == |s|) && BlankValuesAt(s, i)
            && (forall k: nat | k < i :: !BlankValuesAt(s, k)) ==>
              Parsed(s) == Parts(s[..i + 8], s[i + 8..])
    ensures (forall k: nat, e: nat | NamedAt(s, k, e) :: e == |s|) && (forall k: nat :: !BlankValuesAt(s, k)) ==>
              Parsed(s) == Parts(s, "")
  {
    var i', end' := FormatEndMeaning(s, 0);
    var j := ValuesEndMeaning(s, 0);
    hide NamedAt, BlankValuesAt, Trim, HasPrefix, FormatEnd, ValuesEnd;
    assert s[..|s|] == s && s[|s|..] == "";
    if NamedAt(s, i, end) && BlanksTo(s, end, cut) && forall k: nat, e: nat | k < i && NamedAt(s, k, e) :: e == |s| {
      SamePlace(s, i, end, cut, i', end');
    }
  }

  lemma SamePlace(s: string, i: nat, end: nat, cut: nat, i': nat, end': nat)
    requires NamedAt(s, i, end) && BlanksTo(s, end, cut)
    requires forall k: nat, e: nat | k < i && NamedAt(s, k, e) :: e == |s|
    requires FormatEnd(s, 0).Some? ==>
               && NamedAt(s, i', end') && BlanksTo(s, end', FormatEnd(s, 0).value)
               && forall k: nat, e: nat | k < i' && NamedAt(s, k, e) :: e == |s|
    requires FormatEnd(s, 0).None? ==> forall k: nat, e: nat | NamedAt(s, k, e) :: e == |s|
    ensures FormatEnd(s, 0) == Some(cut)
  {
    NameEnds(s, i);
    hide NamedAt, FormatEnd, IsBlank;
    assert end < |s| && FormatEnd(s, 0).Some?;
    assert end' < |s|;
    assert i == i' && end == end';
  }

  /**
   The format of a table is the name behind the first FORMAT of its query, in any case; without one it is "values".
   */
  lemma {:induction false} FormatNameMeaning(s: string, from: nat, i: nat, end: nat)
    requires from <= |s|
    ensures from <= i && NamedAt(s, i, end) && (forall k: nat | from <= k < i :: !FormatAt(s, k)) ==>
              FormatName(s, from) == s[i + 7..end]
    ensures (forall k: nat | from <= k :: !FormatAt(s, k)) ==> FormatName(s, from) == "values"
    decreases |s| - from
  {
    if FormatAt(s, from) {
      NameEnds(s, from);
    } else if from < |s| {
      FormatNameMeaning(s, from + 1, i, end);
    }
  }

  lemma FormatMeaning(s: string, i: nat, end: nat)
    ensures NamedAt(s, i, end) && (forall k: nat | k < i :: !FormatAt(s, k)) ==> GetFormat(s) == Trim(s[i + 7..end])
    ensures (forall k: nat :: !FormatAt(s, k)) ==> GetFormat(s) == "values"
  {
    hide Trim, FormatAt, NamedAt, FormatName;
    FormatNameMeaning(s, 0, i, end);
    assert Trim("values") == "values" by {
      ValuesIsTrim();
    }
  }

  lemma ValuesIsTrim()
    ensures Trim("values") == "values"
  {
  }

  // ---------------------------------------------------------------- white space at the ends

  lemma TrimSlice(s: string)
    ensures Bytes(s) ==> Bytes(Trim(s))
    ensures |Trim(s)| <= |s|
  {
  }

  lemma TrimTwice(s: string)
    ensures Trim(Trim(s)) == Trim(s)
  {
    var t := Trim(s);
    if t != "" {
      assert t[0] == TrimLeft(s)[0];
      assert TrimLeft(t) == t && TrimRight(t) == t;
    }
  }

  // A character that is not white space stays.
  lemma {:induction false} TrimKeeps(s: string, i: nat)
    requires i < |s| && !IsSpace(s[i])
    ensures Trim(s) != ""
  {
    LeftKeeps(s, i);
    var l := TrimLeft(s);
    RightKeeps(l, i - (|s| - |l|));
  }

  lemma {:induction false} LeftKeeps(s: string, i: nat)
    requires i < |s| && !IsSpace(s[i])
    ensures |s| - |TrimLeft(s)| <= i
  {
    if IsSpace(s[0]) {
      LeftKeeps(s[1..], i - 1);
    }
  }

  lemma {:induction false} RightKeeps(s: string, i: nat)
    requires i < |s| && !IsSpace(s[i])
    ensures i < |TrimRight(s)|
  {
    if IsSpace(s[|s| - 1]) {
      RightKeeps(s[..|s| - 1], i);
    }
  }

  // What is left of leading white space.
  lemma {:induction false} LeftSpaces(s: string)
    ensures forall i | 0 <= i < |s| - |TrimLeft(s)| :: IsSpace(s[i])
  {
    if s != "" && IsSpace(s[0]) {
      LeftSpaces(s[1..]);
    }
  }

  // ---------------------------------------------------------------- what the cut keeps

  // A cut in two, up to white space around each part.
  ghost predicate SplitAt(s: string, p: Parts, cut: nat) {
    cut <= |s| && Trim(p.prefix) == Trim(s[..cut]) && Trim(p.content) == Trim(s[cut..])
  }

  /**
   The cut loses nothing but white space around the head and the data, if and only if a FORMAT that comes before the
   VALUES has its name ended by a space, a newline or a semicolon; otherwise both parts come out empty.
   */
  lemma ParseKeepsText(s: string)
    ensures (exists cut: nat :: SplitAt(s, Parsed(s), cut)) <==> !Unterminated(s)
    ensures Unterminated(s) ==> Parsed(s) == Parts("", "")
  {
    hide WordEnd, FormatEnd, ValuesEnd, Trim;
    if Unterminated(s) {
      var i := Index(s, "FORMAT");
      FirstChar(s, "FORMAT", i);
      forall cut: nat ensures !SplitAt(s, Parts("", ""), cut) {
        if cut <= |s| {
          HeadOrTail(s, i, cut);
        }
      }
    } else {
      var cut := CutAt(s);
      TrimTwice(s[..cut]);
      TrimTwice(s[cut..]);
      assert SplitAt(s, Parsed(s), cut);
    }
  }

  lemma FirstChar(s: string, sub: string, i: int)
    requires OccursAt(s, sub, i) && sub != ""
    ensures s[i] == sub[0]
  {
    assert s[i] == s[i..i + |sub|][0];
  }

  lemma HeadOrTail(s: string, i: nat, cut: nat)
    requires i < |s| && !IsSpace(s[i]) && cut <= |s|
    ensures Trim("") == "" && (Trim(s[..cut]) != "" || Trim(s[cut..]) != "")
  {
    if i < cut {
      TrimKeeps(s[..cut], i);
    } else {
      TrimKeeps(s[cut..], i - cut);
    }
  }

  // ---------------------------------------------------------------- the word that marks an insert

  // The six letters, one by one.
  predicate IsInsert(s: string) {
    && |s| >= 6 && LowerChar(s[0]) == 'i' && LowerChar(s[1]) == 'n' && LowerChar(s[2]) == 's'
    && LowerChar(s[3]) == 'e' && LowerChar(s[4]) == 'r' && LowerChar(s[5]) == 't'
  }

  lemma InsertLetters(s: string)
    ensures HasPrefix(s, "insert") <==> IsInsert(s)
  {
    if |s| >= 6 {
      var l, w := Lower(s[..6]), Lower("insert");
      assert w == "insert";
      assert forall k | 0 <= k < 6 :: l[k] == LowerChar(s[k]);
      assert l == w <==> forall k | 0 <= k < 6 :: l[k] == w[k];
      assert l == [l[0], l[1], l[2], l[3], l[4], l[5]];
    }
  }

  // A keyword that starts with none of the letters of "insert" comes after it.
  lemma AfterInsert(s: string, p: nat)
    requires IsInsert(TrimLeft(s)) && p < |s|
    requires LowerChar(s[p]) == 'f' || LowerChar(s[p]) == 'v'
    ensures p >= |s| - |TrimLeft(s)| + 6
  {
    hide TrimLeft;
    var t, w := TrimLeft(s), |s| - |TrimLeft(s)|;
    LeftSpaces(s);
    assert forall k | 0 <= k < 6 :: t[k] == s[w + k];
    assert p >= w;
  }

  lemma CutAfterInsert(s: string)
    requires IsInsert(TrimLeft(s)) && !Unterminated(s)
    ensures CutAt(s) >= |s| - |TrimLeft(s)| + 6
  {
    var i, k := Index(s, "FORMAT"), ValuesAt(s);
    if FormatFirst(s) {
      FirstChar(s, "FORMAT", i);
      AfterInsert(s, i);
    } else if k >= 0 {
      FirstChar(s, if Index(s, "VALUES") == -1 then "values" else "VALUES", k);
      AfterInsert(s, k);
    } else {
      FormatAfterInsert(s, 0);
      ValuesAfterInsert(s, 0);
    }
  }

  lemma {:induction false} FormatAfterInsert(s: string, from: nat)
    requires IsInsert(TrimLeft(s)) && from <= |s|
    ensures FormatEnd(s, from).Some? ==> FormatEnd(s, from).value >= |s| - |TrimLeft(s)| + 6
    decreases |s| - from
  {
    if HasPrefix(s[from..], "format") {
      assert Lower(s[from..][..6])[0] == Lower("format")[0];
      AfterInsert(s, from);
    } else if from < |s| {
      FormatAfterInsert(s, from + 1);
    }
    if from < |s| {
      FormatAfterInsert(s, from + 1);
    }
  }

  lemma {:induction false} ValuesAfterInsert(s: string, from: nat)
    requires IsInsert(TrimLeft(s)) && from <= |s|
    ensures ValuesEnd(s, from).Some? ==> ValuesEnd(s, from).value >= |s| - |TrimLeft(s)| + 6
    decreases |s| - from
  {
    if from + 7 < |s| && HasPrefix(s[from + 1..], "values") {
      assert Lower(s[from + 1..][..6])[0] == Lower("values")[0];
      AfterInsert(s, from + 1);
    }
    if from < |s| {
      ValuesAfterInsert(s, from + 1);
    }
  }

  // The head, with its white space trimmed, is what stands before the cut.
  lemma HeadIsCut(s: string)
    ensures Trim(Parsed(s).prefix) == if Unterminated(s) then "" else Trim(s[..CutAt(s)])
  {
    hide CutAt, Unterminated, FormatFirst, ValuesAt, Trim;
    if Unterminated(s) {
      TrimSlice("");
    } else {
      TrimTwice(s[..CutAt(s)]);
    }
  }

  /** The head is seen as an insert exactly when the statement is one and the cut does not lose it. */
  lemma InsertSeen(s: string)
    ensures HasPrefix(Trim(Parsed(s).prefix), "insert") <==> !Unterminated(s) && HasPrefix(TrimLeft(s), "insert")
  {
    hide CutAt, Unterminated, Parsed, Trim, TrimLeft, HasPrefix;
    HeadIsCut(s);
    InsertLetters(Trim(Parsed(s).prefix));
    InsertLetters(TrimLeft(s));
    if !Unterminated(s) {
      HeadSeen(s, CutAt(s));
      if IsInsert(TrimLeft(s)) {
        CutAfterInsert(s);
      }
    }
  }

  lemma HeadSeen(s: string, cut: nat)
    requires cut <= |s|
    ensures IsInsert(Trim(s[..cut])) ==> IsInsert(TrimLeft(s))
    ensures cut >= |s| - |TrimLeft(s)| + 6 && IsInsert(TrimLeft(s)) ==> IsInsert(Trim(s[..cut]))
  {
    hide TrimLeft, TrimRight;
    var t, h := TrimLeft(s), TrimLeft(s[..cut]);
    TrimLeftOfPrefix(s, cut);
    if cut >= |s| - |t| + 6 && IsInsert(t) {
      assert h[5] == t[5];
      RightKeeps(h, 5);
    }
  }

  lemma {:induction false} TrimLeftOfPrefix(s: string, cut: nat)
    requires cut <= |s|
    ensures var t, h := TrimLeft(s), TrimLeft(s[..cut]);
            && (cut >= |s| - |t| ==> |h| == cut - (|s| - |t|) && h == t[..|h|])
            && (cut < |s| - |t| ==> h == "")
  {
    hide IsSpace;
    var c := s[..cut];
    if s == "" || cut == 0 {
      assert c == "";
    } else if IsSpace(s[0]) {
      TrimLeftOfPrefix(s[1..], cut - 1);
      assert c[1..] == s[1..][..cut - 1];
    } else {
      assert TrimLeft(s) == s && TrimLeft(c) == c;
    }
  }

  // When nothing follows the name of a format that stands before VALUES, nothing of the statement is kept.
  lemma OpenEnded(head: string)
    requires 'F' !in head && 'V' !in head
    ensures Parsed(head + "FORMAT VALUES") == Parts("", "")
  {
    OpenEndedIndex(head);
    OpenEndedWord(head);
    hide Index, FormatEnd, ValuesEnd, CutAt, Trim, Bytes, WordEnd, HasPrefix;
  }

  lemma OpenEndedIndex(head: string)
    requires 'F' !in head && 'V' !in head
    ensures var s := head + "FORMAT VALUES";
            Index(s, "FORMAT") == |head| && Index(s, "VALUES") == |head| + 7
  {
    hide Index;
    var s, n := head + "FORMAT VALUES", |head|;
    assert s[..n] == head && s[n..n + 6] == "FORMAT";
    FirstAt(s, "FORMAT", n);
    var front := head + "FORMAT ";
    assert s[..n + 7] == front && 'V' !in front && s[n + 7..n + 13] == "VALUES";
    FirstAt(s, "VALUES", n + 7);
  }

  // No stop follows "FORMAT ".
  lemma OpenEndedWord(head: string)
    ensures WordEnd(head + "FORMAT VALUES", |head| + 7).None?
  {
    hide SkipStops, FindStop;
    var s, n := head + "FORMAT VALUES", |head|;
    assert s[n + 7..] == "VALUES";
    forall i | n + 7 <= i < |s| ensures !IsStop(s[i]) {
      assert s[i] == "VALUES"[i - n - 7];
    }
  }

  lemma OpenEndedIsLost()
    ensures Parsed("INSERT INTO t " + "FORMAT VALUES") == Parts("", "")
  {
    hide Parsed;
    OpenEnded("INSERT INTO t ");
  }

  lemma FirstAt(s: string, sub: string, k: nat)
    requires OccursAt(s, sub, k) && sub != "" && sub[0] !in s[..k]
    ensures Index(s, sub) == k
  {
    forall i | 0 <= i < k ensures !OccursAt(s, sub, i) {
      assert s[i] == s[..k][i];
      if OccursAt(s, sub, i) {
        FirstChar(s, sub, i);
      }
    }
  }
}
