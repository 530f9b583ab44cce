/** The key under which inserts are batched: the query string with the statement's head as its last parameter. */
module BatchKey {
  import opened Options
  import opened Text
  import opened Percent
  import opened Statement

  const QUERY := "query="

  // What the handler gets from a request.
  datatype Accepted = Accepted(params: string, content: string, insert: bool)

  // ---------------------------------------------------------------- from a request to the key

  function Segment(tail: string): string {
    var end := Index(tail, "&");
    if end >= 0 then tail[..end] else tail
  }

  function AfterSegment(tail: string): string {
    var end := Index(tail, "&");
    if end >= 0 then tail[end + 1..] else ""
  }

  // The first spelling of "query=" counts, wherever it is.
  predicate HasQuery(qs: string) {
    Index(qs, QUERY) >= 0
  }

  function Tail(qs: string): string
    requires HasQuery(qs)
  {
    qs[Index(qs, QUERY) + 6..]
  }

  predicate Unescapes(qs: string) {
    !HasQuery(qs) || QueryUnescape(Segment(Tail(qs))).Some?
  }

  // The statement that is cut.
  function Given(qs: string, body: string): string
    requires Unescapes(qs)
  {
    if HasQuery(qs) then QueryUnescape(Segment(Tail(qs))).value + (if body != "" then " " + body else "")
    else body
  }

  // The query string without its query.
  function Others(qs: string): string {
    if HasQuery(qs) then qs[..Index(qs, QUERY)] + AfterSegment(Tail(qs)) else qs
  }

  // The query is put at the end, behind a '&' unless the query string gave one with its own query.
  function Keyed(qs: string, query: string): string {
    var rest := Others(qs);
    if rest == "" || (HasQuery(qs) && rest[|rest| - 1] == '&') then rest + QUERY + query else rest + "&" + QUERY + query
  }

  // Collector.ParseQuery.
  function ParseQuery(qs: string, body: string): Accepted
    requires Bytes(qs) && Bytes(body)
  {
    if !Unescapes(qs) then Accepted(qs, body, false)
    else
      GivenBytes(qs, body);
      ParsedBytes(Given(qs, body));
      var p := Parsed(Given(qs, body));
      var query := Trim(p.prefix);
      Accepted(
        Trim(Keyed(qs, QueryEscape(query))), Trim(p.content),
        if HasQuery(qs) then HasPrefix(Tail(qs), "insert") else HasPrefix(query, "insert"))
  }

  lemma GivenBytes(qs: string, body: string)
    requires Bytes(qs) && Bytes(body) && Unescapes(qs)
    ensures Bytes(Given(qs, body))
  {
    if HasQuery(qs) {
      UnescapedBytes(Segment(Tail(qs)));
    }
  }

  // ---------------------------------------------------------------- from the key back to the parameters

  function LastQuery(items: seq<string>): string {
    if items == [] then ""
    else
      var p := items[|items| - 1];
      if HasPrefix(p, QUERY) then p[6..] else LastQuery(items[..|items| - 1])
  }

  function NoQueries(items: seq<string>): seq<string> {
    if items == [] then []
    else
      var rest, p := NoQueries(items[..|items| - 1]), items[|items| - 1];
      if HasPrefix(p, QUERY) then rest else rest + [p]
  }

  function Separated(name: string): (string, string) {
    var items := Split(name, "&");
    var q := QueryUnescape(LastQuery(items));
    if q.Some? then (q.value, Trim(Join(NoQueries(items), "&"))) else ("", name)
  }

  // Every item behind a '&'.
  function Prefixed(items: seq<string>): string {
    if items == [] then "" else Prefixed(items[..|items| - 1]) + "&" + items[|items| - 1]
  }

  lemma {:induction false} PrefixedJoin(items: seq<string>)
    ensures items != [] ==> Prefixed(items) == "&" + Join(items, "&")
  {
    if |items| > 1 {
      var pre, p := items[..|items| - 1], items[|items| - 1];
      PrefixedJoin(pre);
      JoinConcat(pre, [p], "&");
      assert items == pre + [p];
    } else if |items| == 1 {
      assert items[..0] == [];
    }
  }

  // Collector.separateQuery.
  method SeparateQuery(name: string) returns (query: string, params: string)
    ensures (query, params) == Separated(name)
  {
    hide Split, Trim, QueryUnescape;
    var items := Split(name, "&");
    query, params := "", "";
    for i := 0 to |items|
      invariant query == LastQuery(items[..i]) && params == Prefixed(NoQueries(items[..i]))
    {
      var p := items[i];
      assert items[..i + 1][..i] == items[..i];
      if HasPrefix(p, QUERY) {
        query := p[6..];
      } else {
        var done := NoQueries(items[..i]);
        assert (done + [p])[..|done|] == done;
        params := params + "&" + p;
      }
    }
    assert items[..|items|] == items;
    PrefixedJoin(NoQueries(items));
    Trimless();
    if |params| > 0 {
      params := Trim(params[1..]);
    }
    var q := QueryUnescape(query);
    if q.None? {
      return "", name;
    }
    query := q.value;
  }

  lemma Trimless()
    ensures Trim("") == ""
  {
  }

  /**
   What is not batched: a query that does not unescape, which is when a '%' of it lacks its two digits, and a request
   whose query, as it is spelled in the query string, or whose body without one, does not start with "insert".
   */
  lemma NotBatched(qs: string, body: string)
    requires Bytes(qs) && Bytes(body)
    ensures !Unescapes(qs) ==> ParseQuery(qs, body) == Accepted(qs, body, false)
    ensures Unescapes(qs) <==> HasQuery(qs) ==>
              forall i | 0 <= i < |Segment(Tail(qs))| :: Complete(Segment(Tail(qs)), i)
    ensures ParseQuery(qs, body).insert && HasQuery(qs) ==>
              forall i | 0 <= i < 6 :: i < |Tail(qs)| && SameLetter(Tail(qs)[i], "insert"[i])
  {
    hide QueryUnescape, Parsed, Trim, Segment, QueryEscape, Keyed;
    if HasQuery(qs) {
      UnescapesExactly(Segment(Tail(qs)));
      PrefixMeaning(Tail(qs), "insert");
    }
  }

  // A key whose query has a '%' without its digits gives no query, and all of itself as the parameters.
  lemma BrokenKey(name: string, i: nat)
    requires var q := LastQuery(Split(name, "&")); i < |q| && !Complete(q, i)
    ensures Separated(name) == ("", name)
  {
    hide LastQuery, NoQueries, Split, QueryUnescape, Complete;
    UnescapesExactly(LastQuery(Split(name, "&")));
  }

  const SPELLED := "query=%49NSERT+INTO+t+VALUES"

  // An INSERT whose first letter is escaped is none.
  lemma EscapedWordIsNone(body: string)
    requires Bytes(body)
    ensures Bytes(SPELLED) && !ParseQuery(SPELLED, body).insert
  {
    SpelledTail();
    hide ParseQuery, HasQuery, Tail, Unescapes, Bytes, SPELLED;
    NotBatched(SPELLED, body);
  }

  lemma SpelledTail()
    ensures Bytes(SPELLED) && HasQuery(SPELLED) && Tail(SPELLED) != "" && Tail(SPELLED)[0] == '%'
  {
    SpelledBytes();
    hide Bytes;
    assert SPELLED[0..6] == QUERY && OccursAt(SPELLED, QUERY, 0);
    assert Index(SPELLED, QUERY) == 0;
    hide Index;
    assert SPELLED[6..][0] == SPELLED[6] == '%';
  }

  lemma SpelledBytes()
    ensures Bytes(SPELLED)
  {
  }

  // ---------------------------------------------------------------- the key says what it was made of

  // Nothing behind a character that is not white space is trimmed from the left.
  lemma {:induction false} LeftStops(a: string, b: string)
    requires b != "" && !IsSpace(b[0])
    ensures TrimLeft(a + b) == TrimLeft(a) + b
  {
    hide IsSpace, TrimLeft;
    LeftUnfold(a + b);
    LeftUnfold(a);
    if a == "" {
      assert a + b == b;
    } else {
      assert (a + b)[1..] == a[1..] + b;
      LeftStops(a[1..], b);
    }
  }

  lemma LeftUnfold(s: string)
    ensures TrimLeft(s) == if s != "" && IsSpace(s[0]) then TrimLeft(s[1..]) else s
  {
  }

  lemma RightStops(a: string)
    requires a != "" && !IsSpace(a[|a| - 1])
    ensures TrimRight(a) == a
  {
  }

  lemma TrimBefore(a: string, x: string)
    requires x != "" && !IsSpace(x[0]) && !IsSpace(x[|x| - 1])
    ensures Trim(a + x) == TrimLeft(a) + x
  {
    hide TrimLeft, TrimRight, IsSpace;
    LeftStops(a, x);
    var t := TrimLeft(a) + x;
    assert t[|t| - 1] == x[|x| - 1];
    RightStops(t);
  }

  ghost predicate Bare(x: string) {
    x != "" && !IsSpace(x[0]) && !IsSpace(x[|x| - 1])
  }

  lemma BareBehind(c: char, x: string)
    requires x != "" && !IsSpace(c) && !IsSpace(x[|x| - 1])
    ensures Bare([c] + x)
  {
    assert ([c] + x)[|x|] == x[|x| - 1];
  }

  lemma QueryIsBare(e: string)
    requires forall i | 0 <= i < |e| :: EscapedChar(e[i])
    ensures Bare(QUERY + e)
  {
    var x := QUERY + e;
    if e == "" {
      assert x == QUERY;
    } else {
      assert x[|x| - 1] == e[|e| - 1];
    }
  }

  // A parameter with an escaped value at the end of a query string stays whole.
  lemma TrimQuery(rest: string, x: string)
    requires Bare(x)
    ensures Trim(x) == x
    ensures Trim(rest + ("&" + x)) == TrimLeft(rest) + ("&" + x)
  {
    hide TrimLeft, Trim;
    Nothing(x);
    TrimBefore("", x);
    BareBehind('&', x);
    TrimBefore(rest, "&" + x);
  }

  lemma Nothing(x: string)
    ensures "" + x == x && TrimLeft("") == ""
  {
  }

  // A query appended behind a '&' is the one that is read back, and the other parameters are those before it.
  lemma SeparateAppended(rest: string, e: string)
    requires '&' !in e
    ensures var s := Split(rest + ("&" + (QUERY + e)), "&");
            LastQuery(s) == e && NoQueries(s) == NoQueries(Split(rest, "&"))
    ensures LastQuery(Split(QUERY + e, "&")) == e && NoQueries(Split(QUERY + e, "&")) == []
  {
    hide Split, HasPrefix;
    var p, before := QUERY + e, Split(rest, "&");
    IsQuery(e);
    SplitNone(p, '&');
    SplitConcat(rest, '&', p);
    assert rest + ("&" + p) == rest + ['&'] + p;
    assert (before + [p])[..|before|] == before;
    assert [p][..0] == [];
  }

  lemma IsQuery(e: string)
    ensures HasPrefix(QUERY + e, QUERY) && (QUERY + e)[6..] == e
  {
    assert (QUERY + e)[..6] == QUERY;
  }

  // The other parameters, less a '&' that the appended query takes over.
  function Kept(qs: string): string {
    var rest := Others(qs);
    if HasQuery(qs) && rest != "" && rest[|rest| - 1] == '&' then rest[..|rest| - 1] else rest
  }

  lemma KeyedForm(qs: string, e: string)
    ensures if Others(qs) == "" then Kept(qs) == "" && Keyed(qs, e) == QUERY + e
            else Keyed(qs, e) == Kept(qs) + ("&" + (QUERY + e))
  {
    hide HasQuery, Others;
    var rest := Others(qs);
    if HasQuery(qs) && rest != "" && rest[|rest| - 1] == '&' {
      assert rest == Kept(qs) + "&";
    }
  }

  lemma KeyReadBack(qs: string, e: string)
    requires forall i | 0 <= i < |e| :: EscapedChar(e[i])
    ensures var items := Split(Trim(Keyed(qs, e)), "&");
            && LastQuery(items) == e
            && Join(NoQueries(items), "&") == Join(NoQueries(Split(TrimLeft(Kept(qs)), "&")), "&")
  {
    hide Split, NoQueries, LastQuery, Trim, TrimLeft, Keyed, Kept, Others;
    KeyedForm(qs, e);
    QueryIsBare(e);
    TrimQuery(Kept(qs), QUERY + e);
    SeparateAppended(TrimLeft(Kept(qs)), e);
    if Others(qs) == "" {
      NoOthers();
    }
  }

  /**
   The batch key says what it was made of: for every query string and body, separating the key of an accepted request
   gives the trimmed head of its statement, and its other parameters in their order, less those that spell a query too.
   */
  lemma KeyRoundTrip(qs: string, body: string)
    requires Bytes(qs) && Bytes(body) && Unescapes(qs)
    ensures Separated(ParseQuery(qs, body).params)
         == (Trim(Parsed(Given(qs, body)).prefix), Trim(Join(NoQueries(Split(TrimLeft(Kept(qs)), "&")), "&")))
  {
    hide Split, NoQueries, LastQuery, Trim, TrimLeft, QueryEscape, QueryUnescape, Parsed, HasPrefix, Given, Keyed;
    hide Kept, Tail;
    GivenBytes(qs, body);
    ParsedBytes(Given(qs, body));
    var p := Parsed(Given(qs, body)).prefix;
    EscapeRoundTrip(Trim(p));
    EscapedChars(Trim(p));
    KeyReadBack(qs, QueryEscape(Trim(p)));
  }

  /**
   From a request to the table and back: the query that the key gives and the content that is stored are the statement
   cut in two, up to white space, unless the cut loses it; then both are empty.
   */
  lemma StatementKept(qs: string, body: string)
    requires Bytes(qs) && Bytes(body) && Unescapes(qs)
    ensures var a, s := ParseQuery(qs, body), Given(qs, body);
            var query := Separated(a.params).0;
            if Unterminated(s) then query == "" && a.content == ""
            else exists cut: nat :: cut <= |s| && query == Trim(s[..cut]) && a.content == Trim(s[cut..])
  {
    hide Split, NoQueries, Trim, Keyed, Kept, Tail, Parsed, Unterminated, Given, QueryUnescape, LastQuery, QueryEscape;
    KeyRoundTrip(qs, body);
    var s := Given(qs, body);
    ParseKeepsText(s);
    Trimless();
    if !Unterminated(s) {
      var cut: nat :| SplitAt(s, Parsed(s), cut);
      assert ParseQuery(qs, body).content == Trim(s[cut..]);
    }
  }

  lemma NoOthers()
    ensures TrimLeft("") == "" && Join(NoQueries([]), "&") == "" == Join(NoQueries(Split("", "&")), "&")
  {
    SplitNone("", '&');
    assert [""][..0] == [];
    assert !HasPrefix("", QUERY);
  }

  lemma {:induction false} AllKept(items: seq<string>)
    requires forall i | 0 <= i < |items| :: !HasPrefix(items[i], QUERY)
    ensures NoQueries(items) == items
  {
    if items != [] {
      AllKept(items[..|items| - 1]);
    }
  }

  // When no other parameter spells a query, what the query was cut out of comes back, up to white space at the ends.
  lemma RestKept(qs: string, body: string)
    requires Bytes(qs) && Bytes(body) && Unescapes(qs)
    requires forall i | 0 <= i < |Split(TrimLeft(Kept(qs)), "&")| ::
               !HasPrefix(Split(TrimLeft(Kept(qs)), "&")[i], QUERY)
    ensures Separated(ParseQuery(qs, body).params).1 == Trim(Kept(qs))
  {
    hide Split, ParseQuery, HasPrefix, Kept;
    var rest := TrimLeft(Kept(qs));
    KeyRoundTrip(qs, body);
    AllKept(Split(rest, "&"));
    JoinSplit(rest, "&");
    assert TrimLeft(rest) == rest;
  }

  // The query is a parameter of its own.
  predicate AtBoundary(qs: string)
    requires HasQuery(qs)
  {
    var i := Index(qs, QUERY);
    i == 0 || qs[i - 1] == '&'
  }

  // Which of the parameters it is in.
  function QueryItem(qs: string): (k: nat)
    requires HasQuery(qs)
  {
    |Split(qs[..Index(qs, QUERY)], "&")| - 1
  }

  function WithoutItem(items: seq<string>, k: nat): seq<string> {
    if k < |items| then items[..k] + items[k + 1..] else items
  }

  // The parameters of a query string, empty ones aside.
  function Params(qs: string): seq<string> {
    NonEmpty(Split(qs, "&"))
  }

  // The parameters around the query, in terms of those before it, the one it is glued to, and those after it.
  lemma Around(qs: string) returns (before: seq<string>, glued: string, after: seq<string>)
    requires HasQuery(qs)
    ensures glued == "" <==> AtBoundary(qs)
    ensures WithoutItem(Split(qs, "&"), QueryItem(qs)) == before + after
    ensures Split(Others(qs), "&") == if after == [] then before + [glued] else before + [glued + after[0]] + after[1..]
  {
    var a, tail := qs[..Index(qs, QUERY)], Tail(qs);
    QueryInTwo(qs);
    assert Others(qs) == a + AfterSegment(tail);
    assert a == "" || a[|a| - 1] == '&' <==> AtBoundary(qs);
    hide Split, Others, Index, HasQuery, AtBoundary, Tail, AfterSegment;
    var p := Split(a, "&");
    LastPart(a);
    before, glued, after := p[..|p| - 1], p[|p| - 1], Behind(tail);
    AroundQuery(a, tail);
  }

  // The parameters behind the segment.
  function Behind(tail: string): seq<string> {
    if Index(tail, "&") < 0 then [] else Split(AfterSegment(tail), "&")
  }

  lemma AroundQuery(a: string, tail: string)
    ensures var p := Split(a, "&");
            var before, glued, after := p[..|p| - 1], p[|p| - 1], Behind(tail);
            && WithoutItem(Split(a + (QUERY + tail), "&"), |p| - 1) == before + after
            && Split(a + AfterSegment(tail), "&")
               == if after == [] then before + [glued] else before + [glued + after[0]] + after[1..]
  {
    SplitQuery(tail);
    assert Index(tail, "&") < 0 ==> AfterSegment(tail) == "";
    assert Index(tail, "&") >= 0 ==> Behind(tail) == Split(AfterSegment(tail), "&");
    assert Index(tail, "&") < 0 ==> Behind(tail) == [];
    hide Split, Index, AfterSegment, Behind, Segment;
    SplitAppend(a, '&', QUERY + tail);
    SplitAppend(a, '&', AfterSegment(tail));
    var p, after := Split(a, "&"), Behind(tail);
    var before, glued := p[..|p| - 1], p[|p| - 1];
    TakeOut(before, glued + (QUERY + Segment(tail)), after);
    assert ([QUERY + Segment(tail)] + after)[1..] == after;
    if after == [] {
      SplitNone("", '&');
      assert glued + "" == glued && before + [glued] + [] == before + [glued];
    }
  }

  lemma TakeOut(before: seq<string>, x: string, after: seq<string>)
    ensures WithoutItem(before + [x] + after, |before|) == before + after
  {
  }

  lemma QueryInTwo(qs: string)
    requires HasQuery(qs)
    ensures qs == qs[..Index(qs, QUERY)] + (QUERY + Tail(qs))
  {
  }

  lemma LastPart(a: string)
    ensures var p := Split(a, "&");
            p[|p| - 1] == "" <==> a == "" || a[|a| - 1] == '&'
  {
    hide Split;
    if a == "" {
      SplitNone(a, '&');
    } else {
      var pre, c := a[..|a| - 1], a[|a| - 1];
      assert a == pre + [c];
      if c == '&' {
        SplitConcat(pre, '&', "");
        SplitNone("", '&');
        assert pre + ['&'] + "" == a;
      } else {
        SplitAppend(pre, '&', [c]);
        SplitNone([c], '&');
      }
    }
  }

  // The item that starts with the query is the query with its segment.
  lemma SplitQuery(tail: string)
    ensures Split(QUERY + tail, "&")
         == [QUERY + Segment(tail)] + (if Index(tail, "&") < 0 then [] else Split(AfterSegment(tail), "&"))
  {
    TailParts(tail);
    hide Index, Split, Segment, AfterSegment;
    if Index(tail, "&") < 0 {
      SplitNone(QUERY + tail, '&');
    } else {
      assert QUERY + tail == (QUERY + Segment(tail)) + ['&'] + AfterSegment(tail);
      SplitFirst(QUERY + Segment(tail), '&', AfterSegment(tail));
    }
  }

  // The first '&' ends the segment.
  lemma TailParts(tail: string)
    ensures '&' !in Segment(tail)
    ensures if Index(tail, "&") < 0 then tail == Segment(tail) else tail == Segment(tail) + ['&'] + AfterSegment(tail)
  {
    var end := Index(tail, "&");
    if end < 0 {
      NoOccurrence(tail, |tail|);
    } else {
      NoOccurrence(tail, end);
      assert tail[end] == tail[end..end + 1][0] == '&';
    }
  }

  lemma NoOccurrence(s: string, n: nat)
    requires n <= |s| && forall k | 0 <= k < n :: !OccursAt(s, "&", k)
    ensures forall k | 0 <= k < n :: s[k] != '&'
  {
    forall k | 0 <= k < n ensures s[k] != '&' {
      assert !OccursAt(s, "&", k);
      assert s[k..k + 1] == [s[k]];
    }
  }

  // Giving up a '&' at the end gives up no parameter.
  lemma KeptParams(qs: string)
    ensures Params(Kept(qs)) == Params(Others(qs))
  {
    hide Split, Others, HasQuery;
    var rest := Others(qs);
    if HasQuery(qs) && rest != "" && rest[|rest| - 1] == '&' {
      SplitConcat(Kept(qs), '&', "");
      SplitNone("", '&');
      assert rest == Kept(qs) + ['&'] + "";
      NonEmptySnoc(Split(Kept(qs), "&"), "");
    }
  }

  lemma WhichParams(before: seq<string>, glued: string, after: seq<string>)
    ensures var mixed := if after == [] then before + [glued] else before + [glued + after[0]] + after[1..];
            NonEmpty(mixed) == NonEmpty(before + after) <==> glued == ""
  {
    NonEmptyConcat(before, after);
    if after == [] {
      NonEmptySnoc(before, glued);
      assert before + after == before;
    } else {
      var first, rest := after[0], after[1..];
      NonEmptyConcat(before + [glued + first], rest);
      NonEmptyConcat(before, [glued + first]);
      NonEmptyConcat([first], rest);
      assert after == [first] + rest;
      OnePart(first);
      OnePart(glued + first);
      assert glued + first == first <==> glued == "" by {
        assert |glued + first| == |glued| + |first|;
      }
      SameMiddle(NonEmpty(before), NonEmpty([glued + first]), NonEmpty([first]), NonEmpty(rest));
    }
  }

  lemma OnePart(p: string)
    ensures NonEmpty([p]) == if p == "" then [] else [p]
  {
    NonEmptySnoc([], p);
    assert [] + [p] == [p];
  }

  lemma SameMiddle<T>(a: seq<T>, x: seq<T>, y: seq<T>, c: seq<T>)
    ensures a + x + c == a + (y + c) <==> x == y
  {
    if a + x + c == a + (y + c) {
      assert |x| == |y|;
      assert x == (a + x + c)[|a|..|a| + |x|] && y == (a + (y + c))[|a|..|a| + |y|];
    } else {
      assert x == y ==> a + x + c == a + (x + c);
    }
  }

  /**
   Cutting the query out leaves the other parameters as they are, in order, if and only if it is a parameter of its own:
   it stands at the start or behind a '&'. Otherwise what stands before it is glued to the parameter that follows.
   */
  lemma ItemsKept(qs: string)
    requires HasQuery(qs)
    ensures Params(Kept(qs)) == NonEmpty(WithoutItem(Split(qs, "&"), QueryItem(qs))) <==> AtBoundary(qs)
  {
    hide Split, Others, Kept, QueryItem, WithoutItem, AtBoundary, NonEmpty;
    var before, glued, after := Around(qs);
    KeptParams(qs);
    WhichParams(before, glued, after);
  }

  lemma TrimmedLeft(s: string)
    requires Trim(s) == s
    ensures TrimLeft(s) == s
  {
  }

  /**
   The parameters of a request come back from its key: without white space at the ends and without another parameter
   that spells a query, the key gives the request's parameters less its query, in order, empty ones aside, if and only
   if the first "query=" is a parameter of its own; and all of them when there is none.
   */
  lemma ParamsKept(qs: string, body: string)
    requires Bytes(qs) && Bytes(body) && Unescapes(qs) && Trim(Kept(qs)) == Kept(qs)
    requires forall p | p in Split(Kept(qs), "&") :: !HasPrefix(p, QUERY)
    ensures HasQuery(qs) ==>
              (Params(Separated(ParseQuery(qs, body).params).1) == NonEmpty(WithoutItem(Split(qs, "&"), QueryItem(qs)))
               <==> AtBoundary(qs))
    ensures !HasQuery(qs) ==> Separated(ParseQuery(qs, body).params).1 == qs
  {
    hide Split, ParseQuery, HasPrefix, Kept, Separated, NonEmpty, WithoutItem, QueryItem, AtBoundary, Trim, TrimLeft;
    TrimmedLeft(Kept(qs));
    RestKept(qs, body);
    if HasQuery(qs) {
      ItemsKept(qs);
    } else {
      WholeKept(qs);
    }
  }

  lemma WholeKept(qs: string)
    requires !HasQuery(qs)
    ensures Kept(qs) == qs
  {
  }

  const MIDDLE := "subquery=1&a=2"

  // In the middle of a parameter the first "query=" counts too: the key of `subquery=1&a=2` gives `suba=2`.
  lemma MiddleIsCut(body: string)
    requires Bytes(body)
    ensures Bytes(MIDDLE) && Unescapes(MIDDLE) && Separated(ParseQuery(MIDDLE, body).params).1 == "suba=2"
  {
    hide ParseQuery, Separated, Split, HasPrefix, Index, Unescapes;
    MiddleCut();
    var rest := "suba=2";
    assert TrimLeft(rest) == rest && TrimRight(rest) == rest;
    hide TrimLeft, TrimRight;
    SplitNone(rest, '&');
    Unspelled(rest);
    RestKept(MIDDLE, body);
  }

  lemma MiddleCut()
    ensures Bytes(MIDDLE) && Unescapes(MIDDLE) && HasQuery(MIDDLE) && Kept(MIDDLE) == "suba=2"
  {
    MiddleIndex();
    MiddleBytes();
    hide Bytes;
    var tail := "1&a=2";
    assert Tail(MIDDLE) == tail && MIDDLE[..3] == "sub";
    MiddleTail(tail);
    hide Index, QueryUnescape;
    assert Others(MIDDLE) == "sub" + "a=2" == "suba=2";
  }

  lemma MiddleBytes()
    ensures Bytes(MIDDLE)
  {
    forall i | 0 <= i < |MIDDLE| ensures MIDDLE[i] < 256 as char {
      assert MIDDLE[i] in ['s', 'u', 'b', 'q', 'e', 'r', 'y', '=', '1', '&', 'a', '2'];
    }
  }

  lemma MiddleIndex()
    ensures Index(MIDDLE, QUERY) == 3
  {
    assert MIDDLE[3..9] == QUERY && OccursAt(MIDDLE, QUERY, 3);
    forall i | 0 <= i < 3 ensures !OccursAt(MIDDLE, QUERY, i) {
      assert MIDDLE[i..i + 6][0] == MIDDLE[i] != 'q';
    }
  }

  lemma MiddleTail(tail: string)
    requires tail == "1&a=2"
    ensures Segment(tail) == "1" && AfterSegment(tail) == "a=2" && QueryUnescape("1").Some?
  {
    assert tail[1..2] == "&" && tail[0..1] == "1" && OccursAt(tail, "&", 1) && !OccursAt(tail, "&", 0);
    assert "1"[1..] == "" && QueryUnescape("") == Some("");
  }

  lemma Unspelled(p: string)
    requires |p| > 0 && LowerChar(p[0]) != 'q'
    ensures !HasPrefix(p, QUERY)
  {
    if |p| >= 6 {
      assert Lower(p[..6])[0] == LowerChar(p[0]) && Lower(QUERY)[0] == 'q';
    }
  }

  /**
   An insert whose query stands in the URL and the same insert sent as one body share a batch and have the same content.
   The URL form is taken for an insert when the query starts with that word; the body form when the statement does,
   leading white space aside, and the cut does not lose it.
   */
  lemma UrlAndBodyAgree(q: string, body: string)
    requires Bytes(q) && Bytes(body) && body != ""
    ensures Bytes(QUERY + QueryEscape(q)) && Bytes(q + " " + body)
    ensures var url, whole := ParseQuery(QUERY + QueryEscape(q), body), ParseQuery("", q + " " + body);
            var text := q + " " + body;
            && url.params == whole.params && url.content == whole.content
            && (url.insert <==> HasPrefix(q, "insert"))
            && (whole.insert <==> !Unterminated(text) && HasPrefix(TrimLeft(text), "insert"))
  {
    hide QueryEscape, QueryUnescape, Parsed, Trim, TrimLeft, HasPrefix, Unterminated;
    var e, text := QueryEscape(q), q + " " + body;
    var qs := QUERY + e;
    EscapeRoundTrip(q);
    EscapedChars(q);
    QueryOfUrl(e);
    NoQuery();
    EscapeKeepsWord(q, "insert");
    InsertSeen(text);
    assert Bytes(qs) by {
      assert forall i | 0 <= i < |e| :: e[i] < 256 as char;
    }
    assert q + (" " + body) == text;
    assert Given(qs, body) == text == Given("", text);
  }

  lemma QueryOfUrl(e: string)
    requires forall i | 0 <= i < |e| :: EscapedChar(e[i])
    ensures var qs := QUERY + e;
            && HasQuery(qs) && Index(qs, QUERY) == 0 && Tail(qs) == e && Segment(e) == e && Others(qs) == ""
  {
    assert (QUERY + e)[0..0 + 6] == QUERY;
    assert OccursAt(QUERY + e, QUERY, 0);
    forall i | 0 <= i < |e| ensures !OccursAt(e, "&", i) {
      assert e[i] != '&';
    }
  }

  lemma NoQuery()
    ensures !HasQuery("") && Others("") == ""
  {
  }

  /** So the two forms of an insert differ in nothing, unless the statement is cut to nothing. */
  lemma InsertFormsAgree(q: string, body: string)
    requires Bytes(q) && Bytes(body) && body != "" && HasPrefix(q, "insert")
    ensures Bytes(QUERY + QueryEscape(q)) && Bytes(q + " " + body)
    ensures ParseQuery(QUERY + QueryEscape(q), body) == ParseQuery("", q + " " + body)
       <==> !Unterminated(q + " " + body)
  {
    hide ParseQuery, QueryEscape, Unterminated;
    var text := q + " " + body;
    UrlAndBodyAgree(q, body);
    StartsBare(q, " " + body);
    assert q + (" " + body) == text;
  }

  lemma StartsBare(q: string, more: string)
    requires HasPrefix(q, "insert")
    ensures HasPrefix(TrimLeft(q + more), "insert")
  {
    InsertLetters(q);
    assert (q + more)[..6] == q[..6];
    assert (q + more)[0] == q[0];
  }
}
