/** The format of a dump file: params, a newline, the content and, after a mark, the server's response. */
module DumpCodec {
  import opened Text

  const MARK := "\n### RESPONSE ###\n"

  function Body(params: string, content: string): string {
    params + "\n" + content
  }

  // What Dump writes.
  function Encode(params: string, content: string, response: string): string {
    Body(params, content) + (if response != "" then MARK + response else "")
  }

  // What GetDumpData hands to the parser.
  function ReadData(file: string): string {
    Split(file, MARK)[0]
  }

  datatype Payload = Payload(params: string, query: string, content: string, rowCount: nat)

  // parseDumpPayload.
  function Parse(data: string): Payload {
    var lines := Split(data, "\n");
    if HasPrefix(lines[0], "insert") then Payload("", lines[0], Join(lines[1..], "\n"), |lines| - 1)
    else
      Payload(lines[0], if |lines| > 1 then lines[1] else "", Join(lines[1..], "\n"),
              if |lines| > 2 then |lines| - 2 else 0)
  }

  function Replayed(params: string, content: string, response: string): Payload {
    Parse(ReadData(Encode(params, content, response)))
  }

  // What the mark may not occur in: the mark written by Dump can overlap an earlier one by its newline only.
  function Guarded(params: string, content: string, response: string): string {
    Body(params, content) + (if response != "" then "\n" else "")
  }

  // A mark that starts before the real one ends by the real one's first character.
  lemma MarkOverlap(a: string, rest: string, i: int)
    requires 0 <= i < |a|
    ensures OccursAt(a + MARK + rest, MARK, i) <==> OccursAt(a + "\n", MARK, i)
  {
    var s, t, n := a + MARK + rest, a + "\n", |MARK|;
    assert s[..|t|] == t;
    if i + n <= |t| {
      assert s[i..i + n] == s[..|t|][i..i + n];
    } else if i + n <= |s| {
      InsideMark(|a| - i);
      assert s[i..i + n][|a| - i] == s[|a|] == '\n';
    }
  }

  // Between its two ends the mark has no newline.
  lemma InsideMark(k: int)
    requires 0 < k < |MARK| - 1
    ensures MARK[k] != '\n'
  {
  }

  // What is read back is the body up to the first mark in it.
  lemma ReadBack(params: string, content: string, response: string)
    ensures var body, g := Body(params, content), Guarded(params, content, response);
            var i := Index(g, MARK);
            ReadData(Encode(params, content, response)) == if i < 0 then body else body[..i]
    ensures Index(Guarded(params, content, response), MARK) < |Body(params, content)|
  {
    var body, g, file := Body(params, content), Guarded(params, content, response), Encode(params, content, response);
    if response != "" {
      assert file == body + MARK + response;
      assert file[|body|..|body| + |MARK|] == MARK;
      assert OccursAt(file, MARK, |body|);
      forall i | 0 <= i < |body| ensures OccursAt(file, MARK, i) <==> OccursAt(g, MARK, i) {
        MarkOverlap(body, response, i);
      }
    } else {
      assert g == body && file == body;
    }
  }

  // What the parser makes of a body cut at i.
  lemma ParseCut(params: string, content: string, i: int)
    requires '\n' !in params && !HasPrefix(params, "insert") && |params| <= i <= |Body(params, content)|
    ensures var p := Parse(Body(params, content)[..i]);
            p.params == params && p.content == if i == |params| then "" else content[..i - |params| - 1]
  {
    var cut := Body(params, content)[..i];
    if i == |params| {
      assert cut == params;
      SplitNone(params, '\n');
    } else {
      var rest := content[..i - |params| - 1];
      assert cut == params + ['\n'] + rest;
      SplitFirst(params, '\n', rest);
      assert ([params] + Split(rest, "\n"))[1..] == Split(rest, "\n");
      JoinSplit(rest, "\n");
    }
  }

  // The parser never returns params with a newline, nor params that look like an insert.
  lemma ParsedParams(data: string)
    ensures '\n' !in Parse(data).params && !HasPrefix(Parse(data).params, "insert")
  {
    SplitParts(data, '\n');
    assert Split(data, "\n")[0] in Split(data, "\n");
    assert !HasPrefix("", "insert");
  }

  /**
   The exact condition of a faithful dump: a replay sends the params and content that were dumped if and only if params
   is one line, does not start with "insert", and no mark occurs in the body, read together with the newline that starts
   the real mark.
   */
  lemma RoundTrip(params: string, content: string, response: string)
    ensures var p := Replayed(params, content, response);
            (p.params == params && p.content == content)
            <==> '\n' !in params && !HasPrefix(params, "insert") && !Occurs(Guarded(params, content, response), MARK)
  {
    var g, body := Guarded(params, content, response), Body(params, content);
    var i := Index(g, MARK);
    ReadBack(params, content, response);
    hide Index, Encode, ReadData;
    var data := ReadData(Encode(params, content, response));
    ParsedParams(data);
    if '\n' !in params && !HasPrefix(params, "insert") {
      if i < 0 {
        assert body[..|body|] == body;
        ParseCut(params, content, |body|);
        assert content[..|content|] == content;
      } else {
        CutBehindParams(params, content, response, i);
        ParseCut(params, content, i);
      }
    }
  }

  // The first mark in a dump of one-line params starts behind them.
  lemma CutBehindParams(params: string, content: string, response: string, i: int)
    requires '\n' !in params && OccursAt(Guarded(params, content, response), MARK, i)
    ensures |params| <= i
  {
    var g := Guarded(params, content, response);
    assert g[i] == g[i..i + |MARK|][0] == '\n';
    assert g[..|params|] == params;
  }

  // A row that is the mark ends the dump: of the rows 1, ### RESPONSE ### and 2 the replay sends the first.
  lemma MarkCutsRows()
    ensures Replayed("", "1" + MARK + "2", "").content == "1"
    ensures Replayed("", "1" + MARK + "2", "").params == ""
  {
    var content := "1" + MARK + "2";
    var g := Guarded("", content, "");
    assert g == "\n1" + MARK + "2";
    assert g[2..2 + |MARK|] == MARK && OccursAt(g, MARK, 2);
    forall i | 0 <= i < 2 ensures !OccursAt(g, MARK, i) {
      assert g[i..i + |MARK|][0] == g[i] && g[i..i + |MARK|][1] == g[i + 1];
    }
    ReadBack("", content, "");
    assert !HasPrefix("", "insert");
    ParseCut("", content, 2);
    assert content[..1] == "1";
  }

  /**
   What the parser finds in a dump of lines: the params, the query, the query with its rows as the content, and how many
   rows there are; and in a file that starts with an insert, that insert as the query.
   */
  lemma PayloadParts(params: string, query: string, rows: seq<string>)
    requires '\n' !in params && '\n' !in query && forall i | 0 <= i < |rows| :: '\n' !in rows[i]
    requires !HasPrefix(params, "insert") && rows != []
    ensures Parse(Join([params, query] + rows, "\n"))
         == Payload(params, query, Join([query] + rows, "\n"), |rows|)
    ensures HasPrefix(query, "insert") ==>
              Parse(Join([query] + rows, "\n")) == Payload("", query, Join(rows, "\n"), |rows|)
  {
    hide Parse, Split, Join, HasPrefix;
    var all, lines := [params, query] + rows, [query] + rows;
    assert all[1..] == lines && lines[1..] == rows;
    ParseLines(all);
    ParseLines(lines);
  }

  lemma ParseLines(lines: seq<string>)
    requires |lines| >= 2 && forall i | 0 <= i < |lines| :: '\n' !in lines[i]
    ensures Parse(Join(lines, "\n"))
         == if HasPrefix(lines[0], "insert") then Payload("", lines[0], Join(lines[1..], "\n"), |lines| - 1)
            else Payload(lines[0], lines[1], Join(lines[1..], "\n"), |lines| - 2)
  {
    hide Split, Join, HasPrefix;
    SplitJoin(lines, '\n');
  }

  // The file starts with the params and the content, and ends with the response.
  lemma FileParts(params: string, content: string, response: string)
    ensures var file := Encode(params, content, response);
            && |params| + 1 + |content| + |response| <= |file|
            && file[..|params|] == params && file[|params|] == '\n'
            && file[|params| + 1..|params| + 1 + |content|] == content
            && file[|file| - |response|..] == response
            && (response != "" ==> |file| == |params| + 1 + |content| + 18 + |response|)
  {
    var file := Encode(params, content, response);
    var tail := if response != "" then MARK + response else "";
    assert |MARK| == 18;
    assert file == params + ("\n" + (content + tail));
    assert file[|params| + 1..] == content + tail;
  }
}
