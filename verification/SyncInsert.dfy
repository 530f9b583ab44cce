/** The synchronous path of an insert, and its agreement with the batched path. */
module SyncInsert {
  import opened Options
  import opened Text
  import opened Percent
  import opened BatchKey
  import Statement
  import opened Batching

  const QUERY_ID := "query_id="

  function NoIds(items: seq<string>): seq<string> {
    if items == [] then []
    else
      var rest, p := NoIds(items[..|items| - 1]), items[|items| - 1];
      if HasPrefix(p, QUERY_ID) then rest else rest + [p]
  }

  // What separateInsertParams makes of the parameters.
  function SyncSeparated(paramsIn: string): (string, string) {
    var items := NonEmpty(Split(paramsIn, "&"));
    var q := QueryUnescape(LastQuery(items));
    if q.Some? then (q.value, Trim(Join(NoQueries(items), "&"))) else ("", paramsIn)
  }

  lemma NoQueriesSnoc(items: seq<string>, p: string)
    ensures NoQueries(items + [p]) == if HasPrefix(p, QUERY) then NoQueries(items) else NoQueries(items) + [p]
    ensures LastQuery(items + [p]) == if HasPrefix(p, QUERY) then p[6..] else LastQuery(items)
  {
    assert (items + [p])[..|items|] == items;
  }

  // separateInsertParams.
  method SeparateInsertParams(paramsIn: string) returns (query: string, params: string)
    ensures (query, params) == SyncSeparated(paramsIn)
  {
    hide Split, Trim, QueryUnescape, HasPrefix, NoQueries, LastQuery;
    var items := Split(paramsIn, "&");
    query, params := "", "";
    NoItems();
    for i := 0 to |items|
      invariant query == LastQuery(NonEmpty(items[..i])) && params == Prefixed(NoQueries(NonEmpty(items[..i])))
    {
      var p, done := items[i], NonEmpty(items[..i]);
      assert items[..i + 1][..i] == items[..i];
      if p == "" {
        continue;
      }
      NoQueriesSnoc(done, p);
      if HasPrefix(p, QUERY) {
        PrefixLength(p);
        query := p[6..];
        continue;
      }
      PrefixedSnoc(NoQueries(done), p);
      params := params + "&" + p;
    }
    assert items[..|items|] == items;
    PrefixedJoin(NoQueries(NonEmpty(items)));
    Trimless();
    if |params| > 0 {
      params := Trim(params[1..]);
    }
    var q := QueryUnescape(query);
    if q.None? {
      return "", paramsIn;
    }
    query := q.value;
  }

  lemma NoItems()
    ensures LastQuery([]) == "" && NoQueries([]) == []
  {
  }

  lemma PrefixLength(p: string)
    requires HasPrefix(p, QUERY)
    ensures |p| >= 6
  {
  }

  lemma PrefixedSnoc(items: seq<string>, p: string)
    ensures Prefixed(items + [p]) == Prefixed(items) + "&" + p
  {
    assert (items + [p])[..|items|] == items;
  }

  // The key under which Push looks for a table.
  function KeyOf(removeQueryID: bool, paramsIn: string): string {
    if removeQueryID then Trim(Join(NoIds(Split(paramsIn, "&")), "&")) else paramsIn
  }

  // Push, up to the look-up of the table.
  method PushKey(removeQueryID: bool, paramsIn: string) returns (params: string)
    ensures params == KeyOf(removeQueryID, paramsIn)
  {
    hide Split, Trim, HasPrefix;
    params := "";
    if removeQueryID {
      var items := Split(paramsIn, "&");
      for i := 0 to |items|
        invariant params == Prefixed(NoIds(items[..i]))
      {
        var p, done := items[i], NoIds(items[..i]);
        assert items[..i + 1][..i] == items[..i];
        if !HasPrefix(p, QUERY_ID) {
          PrefixedSnoc(done, p);
          params := params + "&" + p;
        }
      }
      assert items[..|items|] == items;
      PrefixedJoin(NoIds(items));
      Trimless();
      if |params| > 0 {
        params := Trim(params[1..]);
      }
    } else {
      params := paramsIn;
    }
  }

  function Posted(query: string, content: string): string {
    query + "\n" + content
  }

  // buildSyncBatchedRequest.
  function SyncRequest(params: string, content: string, id: nat): Request {
    var (query, rest) := SyncSeparated(params);
    Request(rest, query, Posted(query, content), 1, if id > 0 then [id] else [])
  }

  // What a new table makes of one Add.
  function BatchedRequest(removeQueryID: bool, format: string, params: string, content: string, id: nat): Request {
    var (query, rest) := Separated(KeyOf(removeQueryID, params));
    RequestOf(rest, query, format, [Insert(content, id)])
  }

  // ---------------------------------------------------------------- the key of a table

  // The items at these places.
  function Pick(items: seq<string>, places: seq<nat>): seq<string>
    requires forall k | 0 <= k < |places| :: places[k] < |items|
  {
    seq(|places|, k requires 0 <= k < |places| => items[places[k]])
  }

  lemma NoIdsSnoc(items: seq<string>, p: string)
    ensures NoIds(items + [p]) == if HasPrefix(p, "query_id=") then NoIds(items) else NoIds(items) + [p]
  {
    assert (items + [p])[..|items|] == items;
  }

  lemma {:induction false} NoIdsPlaces(items: seq<string>) returns (places: seq<nat>)
    ensures forall j, k | 0 <= j < k < |places| :: places[j] < places[k]
    ensures forall i: nat :: i in places <==> i < |items| && !HasPrefix(items[i], "query_id=")
    ensures (forall k | 0 <= k < |places| :: places[k] < |items|) && NoIds(items) == Pick(items, places)
  {
    hide HasPrefix, NoIds;
    if items == [] {
      EmptyHasNoId();
      places := [];
    } else {
      var pre, p := items[..|items| - 1], items[|items| - 1];
      var before := NoIdsPlaces(pre);
      assert items == pre + [p];
      NoIdsSnoc(pre, p);
      PickSnoc(pre, p, before);
      if HasPrefix(p, "query_id=") {
        places := before;
      } else {
        places := before + [|pre|];
        NewPlace(before, |pre|);
      }
    }
  }

  lemma NewPlace(before: seq<nat>, n: nat)
    requires forall j, k | 0 <= j < k < |before| :: before[j] < before[k]
    requires forall k | 0 <= k < |before| :: before[k] < n
    ensures forall j, k | 0 <= j < k < |before + [n]| :: (before + [n])[j] < (before + [n])[k]
    ensures forall i: nat :: i in before + [n] <==> i in before || i == n
  {
  }

  lemma PickSnoc(pre: seq<string>, p: string, before: seq<nat>)
    requires forall k | 0 <= k < |before| :: before[k] < |pre|
    ensures Pick(pre + [p], before) == Pick(pre, before)
    ensures Pick(pre + [p], before + [|pre|]) == Pick(pre, before) + [p]
  {
  }

  /**
   The key of a table, when query ids are removed: the parameters that do not start with "query_id=", in any case, all
   of them and in their order, but for white space at the ends of the whole.
   */
  lemma KeyMeaning(params: string) returns (places: seq<nat>)
    ensures var items := Split(params, "&");
            && (forall j, k | 0 <= j < k < |places| :: places[j] < places[k])
            && (forall i: nat :: i in places <==> i < |items| && !HasPrefix(items[i], "query_id="))
            && (forall k | 0 <= k < |places| :: places[k] < |items|)
            && KeyOf(true, params) == Trim(Join(Pick(items, places), "&"))
    ensures KeyOf(false, params) == params
  {
    hide Split, Trim, HasPrefix, Join, Pick;
    places := NoIdsPlaces(Split(params, "&"));
  }

  lemma {:induction false} NoIdsConcat(a: seq<string>, b: seq<string>)
    ensures NoIds(a + b) == NoIds(a) + NoIds(b)
  {
    hide HasPrefix;
    if b == [] {
      assert a + b == a;
    } else {
      NoIdsConcat(a, b[..|b| - 1]);
      assert (a + b)[..|a + b| - 1] == a + b[..|b| - 1];
    }
  }

  lemma OneOrNone(x: string)
    ensures NoIds([x]) == if HasPrefix(x, "query_id=") then [] else [x]
  {
    assert [x][..0] == [];
  }

  /** Two requests that differ in such a parameter only are put in one table. */
  lemma IdsShareKey(before: seq<string>, x: string, after: seq<string>)
    requires forall p | p in before + [x] + after :: '&' !in p
    requires HasPrefix(x, "query_id=")
    ensures KeyOf(true, Join(before + [x] + after, "&")) == KeyOf(true, Join(before + after, "&"))
  {
    hide Split, Trim, HasPrefix, Join, NoIds;
    SplitJoin(before + [x] + after, '&');
    NoIdsConcat(before + [x], after);
    NoIdsConcat(before, [x]);
    NoIdsConcat(before, after);
    OneOrNone(x);
    assert NoIds(before) + [] == NoIds(before);
    if before + after != [] {
      SplitJoin(before + after, '&');
    } else {
      JoinOfNone();
      SplitNone("", '&');
      OneOrNone("");
      EmptyHasNoId();
    }
  }

  lemma EmptyHasNoId()
    ensures !HasPrefix("", "query_id=") && NoIds([]) == []
  {
  }

  // The ends of the first and the last part are what trimming the whole trims.
  function TrimEnds(parts: seq<string>): seq<string>
    requires parts != []
  {
    if |parts| == 1 then [Trim(parts[0])]
    else [TrimLeft(parts[0])] + parts[1..|parts| - 1] + [TrimRight(parts[|parts| - 1])]
  }

  lemma {:induction false} RightStopsAt(a: string, b: string)
    requires a != "" && !IsSpace(a[|a| - 1])
    ensures TrimRight(a + b) == a + TrimRight(b)
    decreases |b|
  {
    hide IsSpace;
    if b == "" {
      assert a + b == a;
    } else {
      assert (a + b)[|a + b| - 1] == b[|b| - 1];
      if IsSpace(b[|b| - 1]) {
        assert (a + b)[..|a + b| - 1] == a + b[..|b| - 1];
        RightStopsAt(a, b[..|b| - 1]);
      }
    }
  }

  lemma TrimJoin(parts: seq<string>)
    requires parts != []
    ensures Trim(Join(parts, "&")) == Join(TrimEnds(parts), "&")
  {
    if |parts| == 1 {
      JoinOne(parts[0]);
      JoinOne(Trim(parts[0]));
    } else {
      var first, mid, last := parts[0], parts[1..|parts| - 1], parts[|parts| - 1];
      assert parts == [first] + mid + [last];
      TrimMany(first, mid, last);
      assert TrimEnds(parts) == [TrimLeft(first)] + mid + [TrimRight(last)];
    }
  }

  lemma JoinMany(first: string, mid: seq<string>, last: string)
    ensures Join([first] + mid + [last], "&") == first + (JoinRest(mid) + "&" + last)
  {
    JoinConcat([first] + mid, [last], "&");
    hide Join, JoinRest;
    JoinOne(last);
    JoinRestOf(first, mid);
    assert first + JoinRest(mid) + "&" + last == first + (JoinRest(mid) + "&" + last);
  }

  lemma TrimMany(first: string, mid: seq<string>, last: string)
    ensures Trim(Join([first] + mid + [last], "&")) == Join([TrimLeft(first)] + mid + [TrimRight(last)], "&")
  {
    JoinMany(first, mid, last);
    JoinMany(TrimLeft(first), mid, TrimRight(last));
    RestShape(mid);
    hide TrimLeft, TrimRight, Join, JoinRest, Trim;
    TrimAround(first, JoinRest(mid) + "&", last);
  }

  lemma RestShape(mid: seq<string>)
    ensures var x := JoinRest(mid) + "&"; x[0] == '&' && !IsSpace(x[0]) && !IsSpace(x[|x| - 1])
  {
  }

  lemma TrimAround(a: string, x: string, b: string)
    requires x != "" && !IsSpace(x[0]) && !IsSpace(x[|x| - 1])
    ensures Trim(a + (x + b)) == TrimLeft(a) + (x + TrimRight(b))
  {
    hide TrimLeft, TrimRight, IsSpace;
    assert (x + b)[0] == x[0];
    LeftStops(a, x + b);
    LastOf(TrimLeft(a), x);
    RightStopsAt(TrimLeft(a) + x, b);
    Associate(TrimLeft(a), x, b);
    Associate(TrimLeft(a), x, TrimRight(b));
  }

  lemma LastOf(a: string, x: string)
    requires x != ""
    ensures (a + x)[|a + x| - 1] == x[|x| - 1]
  {
  }

  lemma Associate(a: string, b: string, c: string)
    ensures a + (b + c) == a + b + c
  {
  }

  // What follows the first part.
  function JoinRest(mid: seq<string>): string {
    if mid == [] then "" else "&" + Join(mid, "&")
  }

  lemma JoinRestOf(first: string, mid: seq<string>)
    ensures Join([first] + mid, "&") == first + JoinRest(mid)
  {
    assert ([first] + mid)[1..] == mid;
    if mid == [] {
      assert first + "" == first;
    } else {
      assert first + "&" + Join(mid, "&") == first + ("&" + Join(mid, "&"));
    }
  }

  lemma JoinOne(p: string)
    ensures Join([p], "&") == p
  {
  }

  lemma LeftIsId(p: string)
    ensures HasPrefix(Trim(p), "query_id=") <==> HasPrefix(TrimLeft(p), "query_id=")
    ensures HasPrefix(TrimRight(p), "query_id=") ==> HasPrefix(p, "query_id=")
  {
    hide TrimLeft, TrimRight;
    RightIsId(TrimLeft(p));
    RightIsId(p);
  }

  lemma RightIsId(t: string)
    ensures HasPrefix(TrimRight(t), "query_id=") <==> HasPrefix(t, "query_id=")
  {
    hide TrimRight, HasPrefix;
    PrefixMeaning(t, "query_id=");
    PrefixMeaning(TrimRight(t), "query_id=");
    if HasPrefix(t, "query_id=") {
      Statement.RightKeeps(t, 8);
    }
  }

  /**
   No parameter of the key starts with "query_id=", in any case, if and only if the first one kept does not after its
   leading white space, which the trim takes away.
   */
  lemma NoIdInKey(params: string)
    ensures (forall p | p in Split(KeyOf(true, params), "&") :: !HasPrefix(p, "query_id="))
       <==> (NoIds(Split(params, "&")) == [] || !HasPrefix(TrimLeft(NoIds(Split(params, "&"))[0]), "query_id="))
  {
    hide Split, Trim, TrimLeft, TrimRight, HasPrefix, Join, NoIds, TrimEnds;
    var items := Split(params, "&");
    var kept := NoIds(items);
    KeptItems(items);
    SplitParts(params, '&');
    if kept == [] {
      NoKeyAtAll();
    } else {
      SplitJoin(kept, '&');
      TrimJoin(kept);
      EndsOfKey(kept);
      SplitJoin(TrimEnds(kept), '&');
      IdAtEnds(kept);
    }
  }

  lemma IdAtEnds(kept: seq<string>)
    requires kept != [] && forall p | p in kept :: !HasPrefix(p, "query_id=")
    ensures (forall p | p in TrimEnds(kept) :: !HasPrefix(p, "query_id="))
       <==> !HasPrefix(TrimLeft(kept[0]), "query_id=")
  {
    hide Trim, TrimLeft, TrimRight, HasPrefix;
    var ends, last := TrimEnds(kept), kept[|kept| - 1];
    LeftIsId(kept[0]);
    LeftIsId(last);
    assert last in kept && ends[0] in ends;
    if |kept| > 1 {
      assert forall p :: p in ends <==> p == TrimLeft(kept[0]) || p in kept[1..|kept| - 1] || p == TrimRight(last);
      assert forall p | p in kept[1..|kept| - 1] :: p in kept;
    }
  }

  lemma KeptItems(items: seq<string>)
    ensures forall p | p in NoIds(items) :: p in items && !HasPrefix(p, "query_id=")
  {
    hide HasPrefix, NoIds;
    var places := NoIdsPlaces(items);
    assert forall k | 0 <= k < |places| :: places[k] in places;
  }

  lemma NoKeyAtAll()
    ensures Trim(Join([], "&")) == "" && Split("", "&") == [""] && !HasPrefix("", "query_id=")
  {
    SplitNone("", '&');
  }

  lemma EndsOfKey(kept: seq<string>)
    requires kept != [] && forall p | p in kept :: '&' !in p
    ensures |TrimEnds(kept)| == |kept| && forall i | 0 <= i < |kept| :: '&' !in TrimEnds(kept)[i]
  {
    hide IsSpace;
    assert forall i | 0 <= i < |kept| :: kept[i] in kept;
  }

  const ONE_QUERY := "query=INSERT+INTO+t+VALUES"

  // An example, with the name in either case.
  lemma IdIsRemoved()
    ensures KeyOf(true, "query_id=7" + "&" + ONE_QUERY) == ONE_QUERY
    ensures KeyOf(true, "Query_ID=8" + "&" + ONE_QUERY) == ONE_QUERY
  {
    hide KeyOf, HasPrefix, ONE_QUERY;
    IdSpelled("query_id=7");
    OneKept("query_id=7");
    IdSpelled("Query_ID=8");
    OneKept("Query_ID=8");
  }

  lemma IdSpelled(x: string)
    requires x == "query_id=7" || x == "Query_ID=8"
    ensures HasPrefix(x, "query_id=") && '&' !in x
  {
    PrefixMeaning(x, "query_id=");
    hide HasPrefix;
  }

  lemma OneKept(x: string)
    requires HasPrefix(x, "query_id=") && '&' !in x
    ensures KeyOf(true, x + "&" + ONE_QUERY) == ONE_QUERY
  {
    hide Split, HasPrefix, NoIds, Trim, Join, ONE_QUERY;
    QueryIsNoId();
    var q := ONE_QUERY;
    JoinOne(q);
    assert x + "&" + q == x + ['&'] + q;
    SplitFirst(x, '&', q);
    SplitNone(q, '&');
    assert [x] + [q] == [x, q];
    NoIdsConcat([x], [q]);
    OneOrNone(x);
    OneOrNone(q);
    assert [] + [q] == [q];
  }

  lemma QueryIsNoId()
    ensures !HasPrefix(ONE_QUERY, "query_id=") && '&' !in ONE_QUERY && Trim(ONE_QUERY) == ONE_QUERY
  {
    QueryIsTrim();
    hide HasPrefix, Trim;
    PrefixMeaning(ONE_QUERY, "query_id=");
    assert ONE_QUERY[5] == '=' && "query_id="[5] == '_';
  }

  lemma QueryIsTrim()
    ensures Trim(ONE_QUERY) == ONE_QUERY
  {
    var q := ONE_QUERY;
    assert q[0] == 'q' && q[|q| - 1] == 'S';
    TrimBefore("", q);
    assert TrimLeft("") == "" && "" + q == q;
  }

  // ---------------------------------------------------------------- agreement

  lemma {:induction false} FiltersCommute(items: seq<string>)
    ensures NoQueries(NonEmpty(items)) == NonEmpty(NoQueries(items))
    ensures LastQuery(NonEmpty(items)) == LastQuery(items)
  {
    hide NoQueries, LastQuery, HasPrefix;
    NoItems();
    if items != [] {
      var pre, p := items[..|items| - 1], items[|items| - 1];
      FiltersCommute(pre);
      assert items == pre + [p];
      NoQueriesSnoc(pre, p);
      NoQueriesSnoc(NonEmpty(pre), p);
      NonEmptySnoc(NoQueries(pre), p);
      EmptyIsNoQuery();
    }
  }

  lemma EmptyIsNoQuery()
    ensures !HasPrefix("", QUERY)
  {
  }

  lemma {:induction false} NoIdsKeepsAll(items: seq<string>)
    requires forall i | 0 <= i < |items| :: !HasPrefix(items[i], QUERY_ID)
    ensures NoIds(items) == items
  {
    if items != [] {
      NoIdsKeepsAll(items[..|items| - 1]);
    }
  }

  // How often a character occurs.
  function Occurrences(s: string, c: char): nat {
    multiset(s)[c]
  }

  lemma {:induction false} TrimKeepsOthers(s: string, c: char)
    requires !IsSpace(c)
    ensures Occurrences(Trim(s), c) == Occurrences(s, c)
  {
    LeftKeepsOthers(s, c);
    RightKeepsOthers(TrimLeft(s), c);
  }

  lemma {:induction false} LeftKeepsOthers(s: string, c: char)
    requires !IsSpace(c)
    ensures Occurrences(TrimLeft(s), c) == Occurrences(s, c)
  {
    if s != "" && IsSpace(s[0]) {
      LeftKeepsOthers(s[1..], c);
      assert s == [s[0]] + s[1..];
    }
  }

  lemma {:induction false} RightKeepsOthers(s: string, c: char)
    requires !IsSpace(c)
    ensures Occurrences(TrimRight(s), c) == Occurrences(s, c)
  {
    if s != "" && IsSpace(s[|s| - 1]) {
      RightKeepsOthers(s[..|s| - 1], c);
      assert s == s[..|s| - 1] + [s[|s| - 1]];
    }
  }

  lemma {:induction false} JoinSeparators(items: seq<string>)
    requires forall i | 0 <= i < |items| :: '&' !in items[i]
    ensures Occurrences(Join(items, "&"), '&') == if items == [] then 0 else |items| - 1
  {
    if |items| > 1 {
      JoinSeparators(items[1..]);
      assert '&' !in multiset(items[0]);
    } else if |items| == 1 {
      assert '&' !in multiset(items[0]);
    }
  }

  lemma {:induction false} NoQueriesMembers(items: seq<string>)
    ensures forall p | p in NoQueries(items) :: p in items
  {
    if items != [] {
      NoQueriesMembers(items[..|items| - 1]);
    }
  }

  lemma {:induction false} NonEmptyMembers(items: seq<string>)
    ensures forall p | p in NonEmpty(items) :: p in items
    ensures |NonEmpty(items)| <= |items|
    ensures |NonEmpty(items)| == |items| <==> "" !in items
    ensures "" !in items ==> NonEmpty(items) == items
  {
    if items != [] {
      NonEmptyMembers(items[..|items| - 1]);
      assert items == items[..|items| - 1] + [items[|items| - 1]];
    }
  }

  // At most one parameter, or none of them empty.
  predicate NoGaps(items: seq<string>) {
    |items| <= 1 || "" !in items
  }

  lemma GapsShow(items: seq<string>)
    requires forall i | 0 <= i < |items| :: '&' !in items[i]
    ensures Trim(Join(items, "&")) == Trim(Join(NonEmpty(items), "&")) <==> NoGaps(items)
  {
    hide Trim, Join;
    var ne := NonEmpty(items);
    NonEmptyMembers(items);
    if |items| >= 2 && "" in items {
      JoinSeparators(items);
      assert forall i | 0 <= i < |ne| :: ne[i] in items;
      JoinSeparators(ne);
      TrimKeepsOthers(Join(items, "&"), '&');
      TrimKeepsOthers(Join(ne, "&"), '&');
    } else if "" in items {
      assert items == [""];
      JoinOfNone();
    }
  }

  lemma JoinOfNone()
    ensures NonEmpty([""]) == [] && Join([], "&") == "" == Join([""], "&")
  {
    assert [""][..0] == [];
  }

  lemma SameStatement(params: string)
    ensures SyncSeparated(params).0 == Separated(params).0
    ensures SyncSeparated(params).1 == Separated(params).1
       <==> QueryUnescape(LastQuery(Split(params, "&"))).None? || NoGaps(NoQueries(Split(params, "&")))
  {
    hide Trim, Join, QueryUnescape, NoQueries, LastQuery, NoGaps, NonEmpty, Split;
    var items := Split(params, "&");
    FiltersCommute(items);
    SplitParts(params, '&');
    NoQueriesMembers(items);
    assert forall i | 0 <= i < |NoQueries(items)| :: NoQueries(items)[i] in items;
    GapsShow(NoQueries(items));
  }

  // The same as BatchKey.BrokenKey for the synchronous path.
  lemma BrokenParams(params: string, i: nat)
    requires var q := LastQuery(Split(params, "&")); i < |q| && !Complete(q, i)
    ensures SyncSeparated(params) == ("", params)
  {
    hide LastQuery, NoQueries, Split, QueryUnescape, Complete, NonEmpty;
    FiltersCommute(Split(params, "&"));
    UnescapesExactly(LastQuery(Split(params, "&")));
  }

  predicate NoQueryId(params: string) {
    forall p | p in Split(params, "&") :: !HasPrefix(p, QUERY_ID)
  }

  lemma KeyIsWhole(removeQueryID: bool, params: string)
    requires removeQueryID ==> Trim(params) == params
    requires removeQueryID ==> NoQueryId(params)
    ensures KeyOf(removeQueryID, params) == params
  {
    hide Split, Trim, HasPrefix;
    if removeQueryID {
      NoIdsKeepsAll(Split(params, "&"));
      JoinSplit(params, "&");
    }
  }

  lemma OneAdd(format: string, query: string, rest: string, content: string, id: nat)
    ensures var r := RequestOf(rest, query, format, [Insert(content, id)]);
            && r.params == rest && r.query == query && r.content == Posted(query, content)
            && r.journalIDs == (if id > 0 then [id] else [])
            && (r.count == 1 <==> (format == TAB_SEPARATED ==> '\n' !in content))
  {
    hide Split;
    var adds := [Insert(content, id)];
    assert adds[..0] == [];
    assert AllRows(format, adds) == RowsOf(format, content);
    assert NonZeroIds(adds[..0]) == [];
    JoinSplit(content, "\n");
    if '\n' in content {
      var head, tail := CutAtFirst(content, '\n');
      SplitFirst(head, '\n', tail);
    } else {
      SplitNone(content, '\n');
    }
  }

  /**
   The two paths of an insert say the same: whatever the format, the request of the synchronous path has the statement,
   the content and the journal ids of a new table that flushes after this one insert. It has the same parameters too, if
   and only if the query does not unescape or no parameter is empty among several; and the same row count if and only if
   the table would not split the content.
   */
  lemma PathsAgree(removeQueryID: bool, format: string, params: string, content: string, id: nat)
    requires removeQueryID ==> Trim(params) == params
    requires removeQueryID ==> NoQueryId(params)
    ensures var items := Split(params, "&");
            var b, s := BatchedRequest(removeQueryID, format, params, content, id), SyncRequest(params, content, id);
            && s.query == b.query && s.content == b.content && s.journalIDs == b.journalIDs
            && (s.params == b.params <==> QueryUnescape(LastQuery(items)).None? || NoGaps(NoQueries(items)))
            && (s.count == b.count <==> (format == TAB_SEPARATED ==> '\n' !in content))
  {
    hide Split, Trim, HasPrefix, SyncSeparated, Separated, KeyOf, RequestOf, SyncRequest, NoGaps, NoQueries;
    hide NoQueryId, Posted, IsSpace, QueryUnescape, LastQuery;
    KeyIsWhole(removeQueryID, params);
    SameStatement(params);
    OneAdd(format, Separated(params).0, Separated(params).1, content, id);
    assert BatchedRequest(removeQueryID, format, params, content, id)
        == RequestOf(Separated(params).1, Separated(params).0, format, [Insert(content, id)]);
    SyncParts(params, content, id);
  }

  lemma SyncParts(params: string, content: string, id: nat)
    ensures var s := SyncRequest(params, content, id);
            && s.params == SyncSeparated(params).1 && s.query == SyncSeparated(params).0 && s.count == 1
            && s.content == Posted(SyncSeparated(params).0, content) && s.journalIDs == (if id > 0 then [id] else [])
  {
  }

  const GAP := "a=1&&b=2"

  // An empty parameter is dropped on one path only.
  lemma GapDiffers(format: string, content: string, id: nat)
    ensures SyncRequest(GAP, content, id).params != BatchedRequest(false, format, GAP, content, id).params
  {
    var items := ["a=1", "", "b=2"];
    GapItems();
    hide Split, SyncRequest, BatchedRequest, HasPrefix;
    forall i | 0 <= i < 3 ensures !HasPrefix(items[i], QUERY) {
      if i == 1 {
        EmptyIsNoQuery();
      } else {
        Unspelled(items[i]);
      }
    }
    AllKept(items);
    NoLastQuery(items);
    assert QueryUnescape("") == Some("");
    assert "" in items && !NoGaps(items);
    PathsAgree(false, format, GAP, content, id);
  }

  lemma GapItems()
    ensures Split(GAP, "&") == ["a=1", "", "b=2"]
  {
    hide Split;
    assert GAP == "a=1" + ['&'] + "&b=2" && "&b=2" == "" + ['&'] + "b=2";
    SplitFirst("a=1", '&', "&b=2");
    SplitFirst("", '&', "b=2");
    SplitNone("b=2", '&');
  }

  lemma {:induction false} NoLastQuery(items: seq<string>)
    requires forall i | 0 <= i < |items| :: !HasPrefix(items[i], QUERY)
    ensures LastQuery(items) == ""
  {
    if items != [] {
      NoLastQuery(items[..|items| - 1]);
    }
  }
}
