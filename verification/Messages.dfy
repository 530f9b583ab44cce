/** What an insert, and a batch of them, looks like on its way to a server, and whether a dump of it reads back. */
module Messages {
  import opened Text
  import BatchKey
  import Batching
  import DumpCodec
  import Statement
  import SyncInsert

  // An accepted insert; one that is verbatim is sent as it came, alone.
  datatype Ins = Ins(params: string, content: string, verbatim: bool)

  // The parts of a ClickhouseRequest that are sent, and dumped.
  datatype Message = Message(params: string, content: string)

  function Adds(inserts: seq<Ins>): seq<Batching.Insert> {
    seq(|inserts|, i requires 0 <= i < |inserts| => Batching.Insert(inserts[i].content, 0))
  }

  // The request of a table that holds these inserts, or of a verbatim one.
  function BatchMessage(removeQueryID: bool, inserts: seq<Ins>): Message {
    if inserts == [] then Message("", "")
    else if inserts[0].verbatim then Message(inserts[0].params, inserts[0].content)
    else
      var (query, rest) := BatchKey.Separated(SyncInsert.KeyOf(removeQueryID, inserts[0].params));
      var r := Batching.RequestOf(rest, query, Statement.GetFormat(query), Adds(inserts));
      Message(r.params, r.content)
  }

  // The request of a synchronous insert.
  function SyncMessage(i: Ins): Message {
    if i.verbatim then Message(i.params, i.content)
    else
      var r := SyncInsert.SyncRequest(i.params, i.content, 0);
      Message(r.params, r.content)
  }

  function Contents(inserts: seq<Ins>): seq<string> {
    seq(|inserts|, i requires 0 <= i < |inserts| => inserts[i].content)
  }

  lemma {:induction false} TextsOfAdds(inserts: seq<Ins>)
    ensures Batching.Texts(Adds(inserts)) == Contents(inserts)
  {
    if inserts == [] {
      assert Adds(inserts) == [];
    } else {
      var pre := inserts[..|inserts| - 1];
      TextsOfAdds(pre);
      assert Adds(inserts)[..|inserts| - 1] == Adds(pre);
      assert Contents(inserts) == Contents(pre) + [inserts[|inserts| - 1].content];
    }
  }

  /**
   What is sent for a batch of inserts that share a table: to each of them it is its own statement, under its own
   parameters, followed by the content of all of them in order. A verbatim insert is sent as it came.
   */
  lemma MessageMeaning(removeQueryID: bool, inserts: seq<Ins>, k: nat)
    requires k < |inserts| && forall i | 0 < i < |inserts| :: SameTable(removeQueryID, inserts[0], inserts[i])
    ensures var m := BatchMessage(removeQueryID, inserts);
            if inserts[k].verbatim then m == Message(inserts[k].params, inserts[k].content) && |inserts| == 1
            else
              var (query, rest) := BatchKey.Separated(SyncInsert.KeyOf(removeQueryID, inserts[k].params));
              m == Message(rest, query + "\n" + Join(Contents(inserts),
                                                     if Statement.GetFormat(query) == "RowBinary" then "" else "\n"))
  {
    hide BatchKey.Separated, SyncInsert.KeyOf, Statement.GetFormat, Join, Batching.RequestOf;
    if k > 0 {
      assert SameTable(removeQueryID, inserts[0], inserts[k]);
    } else if |inserts| > 1 {
      assert SameTable(removeQueryID, inserts[0], inserts[1]);
    }
    if !inserts[0].verbatim {
      var (query, rest) := BatchKey.Separated(SyncInsert.KeyOf(removeQueryID, inserts[0].params));
      Batching.BatchMeaning(rest, query, Statement.GetFormat(query), Adds(inserts));
      TextsOfAdds(inserts);
    }
  }

  /**
   A synchronous insert is sent as its statement and its content; that is the content of a batch of this insert alone,
   when its parameters have neither a query id to remove nor white space at the ends.
   */
  lemma SyncMeaning(removeQueryID: bool, i: Ins)
    ensures if i.verbatim then SyncMessage(i) == Message(i.params, i.content)
            else
              var (query, rest) := SyncInsert.SyncSeparated(i.params);
              SyncMessage(i) == Message(rest, query + "\n" + i.content)
    ensures (removeQueryID ==> Trim(i.params) == i.params && SyncInsert.NoQueryId(i.params)) ==>
              SyncMessage(i).content == BatchMessage(removeQueryID, [i]).content
  {
    hide SyncInsert.SyncSeparated, BatchKey.Separated, SyncInsert.KeyOf, SyncInsert.NoQueryId, Trim, Batching.RequestOf;
    if !i.verbatim && (removeQueryID ==> Trim(i.params) == i.params && SyncInsert.NoQueryId(i.params)) {
      var (query, rest) := BatchKey.Separated(SyncInsert.KeyOf(removeQueryID, i.params));
      SyncInsert.PathsAgree(removeQueryID, Statement.GetFormat(query), i.params, i.content, 0);
      assert Adds([i]) == [Batching.Insert(i.content, 0)];
    }
  }

  // Two inserts that the collector puts in one table.
  predicate SameTable(removeQueryID: bool, a: Ins, b: Ins) {
    !a.verbatim && !b.verbatim && SyncInsert.KeyOf(removeQueryID, a.params) == SyncInsert.KeyOf(removeQueryID, b.params)
  }

  function DumpText(m: Message, response: string): string {
    DumpCodec.Encode(m.params, m.content, response)
  }

  // A dump that says, when it is read, what was dumped: see DumpCodec.RoundTrip.
  predicate ReadsBack(m: Message, response: string) {
    && '\n' !in m.params && !HasPrefix(m.params, "insert") && (m.params != "" || m.content != "")
    && Index(DumpCodec.Guarded(m.params, m.content, response), DumpCodec.MARK) < 0
  }

  lemma OccursWider(a: string, s: string, b: string, sub: string)
    requires Occurs(s, sub)
    ensures Occurs(a + s + b, sub)
  {
    var i :| OccursAt(s, sub, i);
    var k := |a| + i;
    assert (a + s + b)[k..k + |sub|] == s[i..i + |sub|];
    assert OccursAt(a + s + b, sub, k);
  }

  // A message with the mark in its content does not read back.
  lemma MarkSpoils(m: Message, response: string)
    requires Occurs(m.content, DumpCodec.MARK)
    ensures !ReadsBack(m, response)
  {
    var tail := if response != "" then "\n" else "";
    OccursWider(m.params + "\n", m.content, tail, DumpCodec.MARK);
    assert DumpCodec.Guarded(m.params, m.content, response) == m.params + "\n" + m.content + tail;
  }

  // An insert whose own content holds the mark makes such a message, alone in its batch or not verbatim.
  lemma InsertWithMark(removeQueryID: bool, i: Ins)
    requires Occurs(i.content, DumpCodec.MARK)
    ensures Occurs(BatchMessage(removeQueryID, [i]).content, DumpCodec.MARK)
  {
    if !i.verbatim {
      var (query, rest) := BatchKey.Separated(SyncInsert.KeyOf(removeQueryID, i.params));
      var m := BatchMessage(removeQueryID, [i]);
      assert Adds([i]) == [Batching.Insert(i.content, 0)];
      OneAddContent(rest, query, Statement.GetFormat(query), i.content);
      assert m.content == query + "\n" + i.content;
      OccursWider(query + "\n", i.content, "", DumpCodec.MARK);
      assert query + "\n" + i.content + "" == m.content;
    }
  }

  lemma OneAddContent(rest: string, query: string, format: string, content: string)
    ensures Batching.RequestOf(rest, query, format, [Batching.Insert(content, 0)]).content == query + "\n" + content
  {
    hide Batching.RequestOf;
    SyncInsert.OneAdd(format, query, rest, content, 0);
  }
}
