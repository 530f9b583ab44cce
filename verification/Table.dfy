/** A collector table: inserts of one batch key gather here and leave as one request. */
module Batching {
  import opened Options
  import opened Text

  datatype Insert = Insert(text: string, id: nat)

  // A ClickhouseRequest as the table builds it.
  datatype Request = Request(params: string, query: string, content: string, count: nat, journalIDs: seq<nat>)

  const TAB_SEPARATED := "TabSeparated"

  function Delimiter(format: string): string {
    if format == "RowBinary" then "" else "\n"
  }

  // The rows one Add contributes.
  function RowsOf(format: string, text: string): (rows: seq<string>)
    ensures rows != []
  {
    if format == TAB_SEPARATED then Split(text, "\n") else [text]
  }

  function AllRows(format: string, adds: seq<Insert>): seq<string> {
    if adds == [] then [] else AllRows(format, adds[..|adds| - 1]) + RowsOf(format, adds[|adds| - 1].text)
  }

  function NonZeroIds(adds: seq<Insert>): seq<nat> {
    if adds == [] then []
    else
      var rest, a := NonZeroIds(adds[..|adds| - 1]), adds[|adds| - 1];
      if a.id > 0 then rest + [a.id] else rest
  }

  function Content(format: string, query: string, rows: seq<string>): string {
    query + "\n" + Join(rows, Delimiter(format))
  }

  // The request that a group of whole Adds makes.
  function RequestOf(params: string, query: string, format: string, adds: seq<Insert>): Request {
    var rows := AllRows(format, adds);
    Request(params, query, Content(format, query, rows), |rows|, NonZeroIds(adds))
  }

  // ---------------------------------------------------------------- the table

  class Table {
    const query: string
    const params: string
    const format: string
    const flushCount: int
    var rows: seq<string>
    var journalIDs: seq<nat>
    var count: nat
    ghost var held: seq<Insert>     // the Adds whose rows are here

    ghost predicate Valid()
      reads this
    {
      && rows == AllRows(format, held)
      && journalIDs == NonZeroIds(held)
      && count == |held|
      && (flushCount >= 1 ==> |rows| < flushCount)
      && (flushCount < 1 ==> held == [])
    }

    constructor (query: string, params: string, format: string, flushCount: int)
      ensures Valid() && held == []
      ensures this.query == query && this.params == params && this.format == format && this.flushCount == flushCount
    {
      this.query, this.params, this.format, this.flushCount := query, params, format, flushCount;
      rows, journalIDs, count, held := [], [], 0, [];
    }

    // doFlush up to the release of the lock: the request to send, made of every Add held, or nothing to do.
    method SnapshotAndReset() returns (req: Option<Request>)
      requires rows == AllRows(format, held) && journalIDs == NonZeroIds(held) && count == |held|
      modifies this
      ensures Valid() && held == []
      ensures req == if old(held) == [] then None else Some(RequestOf(params, query, format, old(held)))
    {
      if count == 0 {
        return None;
      }
      req := Some(Request(params, query, query + "\n" + Join(rows, Delimiter(format)), |rows|, journalIDs));
      rows, journalIDs, count, held := [], [], 0, [];
    }

    // Add, up to the release of the lock; what it returns is sent after that.
    method Add(text: string, id: nat) returns (req: Option<Request>)
      requires Valid()
      modifies this
      ensures Valid()
      ensures var b := Buffered(format, flushCount, Buffer([], old(held)), Arrive(Insert(text, id)));
              && held == b.held
              && req == if b.done == [] then None else Some(RequestOf(params, query, format, b.done[0]))
      ensures var all := old(held) + [Insert(text, id)];
              if |AllRows(format, all)| < flushCount then req == None && held == all
              else req == Some(RequestOf(params, query, format, all)) && held == []
    {
      assert (held + [Insert(text, id)])[..|held|] == held;
      count := count + 1;
      if id > 0 {
        journalIDs := journalIDs + [id];
      }
      if format == TAB_SEPARATED {
        rows := rows + Split(text, "\n");
      } else {
        rows := rows + [text];
      }
      held := held + [Insert(text, id)];
      req := None;
      if |rows| >= flushCount {
        req := SnapshotAndReset();
      }
    }

    // CheckFlush, as the timer and FlushAll call it.
    method CheckFlush() returns (flushed: bool, req: Option<Request>)
      requires Valid()
      modifies this
      ensures Valid() && held == [] && (flushed <==> old(held) != [])
      ensures req == if old(held) == [] then None else Some(RequestOf(params, query, format, old(held)))
    {
      flushed, req := count > 0, None;
      if flushed {
        req := SnapshotAndReset();
      }
    }
  }

  // ---------------------------------------------------------------- all the calls on one table

  datatype Call = Arrive(a: Insert) | Tick

  // The groups of Adds that left, in the order of their snapshots, and the Adds still held.
  datatype Buffer = Buffer(done: seq<seq<Insert>>, held: seq<Insert>)

  function Buffered(format: string, flushCount: int, b: Buffer, c: Call): Buffer {
    match c
    case Arrive(a) =>
      var held := b.held + [a];
      if |AllRows(format, held)| >= flushCount then Buffer(b.done + [held], []) else b.(held := held)
    case Tick => if b.held == [] then b else Buffer(b.done + [b.held], [])
  }

  function After(format: string, flushCount: int, calls: seq<Call>): Buffer {
    if calls == [] then Buffer([], [])
    else Buffered(format, flushCount, After(format, flushCount, calls[..|calls| - 1]), calls[|calls| - 1])
  }

  function Arrivals(calls: seq<Call>): seq<Insert> {
    if calls == [] then []
    else
      var rest, c := Arrivals(calls[..|calls| - 1]), calls[|calls| - 1];
      if c.Arrive? then rest + [c.a] else rest
  }

  function Flatten<T>(groups: seq<seq<T>>): seq<T> {
    if groups == [] then [] else Flatten(groups[..|groups| - 1]) + groups[|groups| - 1]
  }

  function RowsOfGroups(format: string, groups: seq<seq<Insert>>): seq<string> {
    if groups == [] then []
    else RowsOfGroups(format, groups[..|groups| - 1]) + AllRows(format, groups[|groups| - 1])
  }

  lemma {:induction false} AllRowsConcat(format: string, a: seq<Insert>, b: seq<Insert>)
    ensures AllRows(format, a + b) == AllRows(format, a) + AllRows(format, b)
  {
    hide RowsOf;
    if b == [] {
      assert a + b == a;
    } else {
      var pre, last := b[..|b| - 1], RowsOf(format, b[|b| - 1].text);
      AllRowsConcat(format, a, pre);
      assert (a + b)[..|a + b| - 1] == a + pre && (a + b)[|a + b| - 1] == b[|b| - 1];
      assert AllRows(format, a) + (AllRows(format, pre) + last) == AllRows(format, a) + AllRows(format, pre) + last;
    }
  }

  lemma {:induction false} GroupRows(format: string, groups: seq<seq<Insert>>)
    ensures RowsOfGroups(format, groups) == AllRows(format, Flatten(groups))
  {
    if groups != [] {
      GroupRows(format, groups[..|groups| - 1]);
      AllRowsConcat(format, Flatten(groups[..|groups| - 1]), groups[|groups| - 1]);
    }
  }

  lemma FlattenSnoc<T>(groups: seq<seq<T>>, g: seq<T>)
    ensures Flatten(groups + [g]) == Flatten(groups) + g
  {
    assert (groups + [g])[..|groups|] == groups;
  }

  // One call moves Adds from those held to those gone, and changes nothing else.
  lemma CallConserves(format: string, flushCount: int, b: Buffer, c: Call)
    requires forall g | g in b.done :: g != []
    requires if flushCount >= 1 then |AllRows(format, b.held)| < flushCount else b.held == []
    ensures var t := Buffered(format, flushCount, b, c);
            && Flatten(t.done) + t.held == Flatten(b.done) + b.held + (if c.Arrive? then [c.a] else [])
            && (forall g | g in t.done :: g != [])
            && (if flushCount >= 1 then |AllRows(format, t.held)| < flushCount else t.held == [])
  {
    if c.Arrive? {
      FlattenSnoc(b.done, b.held + [c.a]);
    } else {
      FlattenSnoc(b.done, b.held);
    }
  }

  lemma {:induction false} AddsConserved(format: string, flushCount: int, calls: seq<Call>)
    ensures var b := After(format, flushCount, calls);
            && Flatten(b.done) + b.held == Arrivals(calls)
            && (forall g | g in b.done :: g != [])
            && (if flushCount >= 1 then |AllRows(format, b.held)| < flushCount else b.held == [])
  {
    hide Buffered, AllRows;
    if calls == [] {
      NoRows(format);
    } else {
      var pre, c := calls[..|calls| - 1], calls[|calls| - 1];
      AddsConserved(format, flushCount, pre);
      CallConserves(format, flushCount, After(format, flushCount, pre), c);
      assert Arrivals(pre) + [] == Arrivals(pre);
    }
  }

  lemma NoRows(format: string)
    ensures AllRows(format, []) == []
  {
  }

  /**
   Row conservation: under any sequence of Adds and timer flushes, the groups that left and the Adds still held are the
   Adds in lock order, so no insert is lost, doubled, reordered or split; the rows that left and the rows held are all
   the rows; whenever the lock is free fewer than flushCount rows wait, and after the timer none do.
   */
  lemma Conservation(format: string, flushCount: int, calls: seq<Call>)
    ensures var b := After(format, flushCount, calls);
            && Flatten(b.done) + b.held == Arrivals(calls)
            && RowsOfGroups(format, b.done) + AllRows(format, b.held) == AllRows(format, Arrivals(calls))
            && (forall g | g in b.done :: g != [])
            && (if flushCount >= 1 then |AllRows(format, b.held)| < flushCount else b.held == [])
            && (calls != [] && calls[|calls| - 1].Tick? ==> b.held == [])
  {
    hide AllRows, RowsOfGroups, Flatten, Arrivals;
    var b := After(format, flushCount, calls);
    AddsConserved(format, flushCount, calls);
    GroupRows(format, b.done);
    AllRowsConcat(format, Flatten(b.done), b.held);
  }

  function Texts(adds: seq<Insert>): seq<string> {
    if adds == [] then [] else Texts(adds[..|adds| - 1]) + [adds[|adds| - 1].text]
  }

  // The lines of each text, one text after the other.
  lemma {:induction false} RowsAreLines(adds: seq<Insert>)
    requires adds != []
    ensures AllRows(TAB_SEPARATED, adds) != [] && Texts(adds) != []
    ensures Join(AllRows(TAB_SEPARATED, adds), "\n") == Join(Texts(adds), "\n")
    ensures AllRows(TAB_SEPARATED, adds) == Split(Join(Texts(adds), "\n"), "\n")
  {
    var pre, a := adds[..|adds| - 1], adds[|adds| - 1];
    JoinSplit(a.text, "\n");
    if pre == [] {
      assert AllRows(TAB_SEPARATED, adds) == Split(a.text, "\n");
      assert Texts(adds) == [a.text];
    } else {
      RowsAreLines(pre);
      JoinConcat(AllRows(TAB_SEPARATED, pre), Split(a.text, "\n"), "\n");
      JoinConcat(Texts(pre), [a.text], "\n");
      SplitConcat(Join(Texts(pre), "\n"), '\n', a.text);
    }
  }

  // In the other formats every text is one row.
  lemma {:induction false} RowsAreTexts(format: string, adds: seq<Insert>)
    requires format != TAB_SEPARATED
    ensures AllRows(format, adds) == Texts(adds) && |Texts(adds)| == |adds|
  {
    if adds != [] {
      RowsAreTexts(format, adds[..|adds| - 1]);
    }
  }

  function Ids(adds: seq<Insert>): seq<nat> {
    seq(|adds|, i requires 0 <= i < |adds| => adds[i].id)
  }

  // The journal ids of a batch are those of its inserts that have one.
  lemma {:induction false} IdsMeaning(adds: seq<Insert>)
    ensures forall id :: id in NonZeroIds(adds) <==> id > 0 && id in Ids(adds)
    ensures 0 !in Ids(adds) ==> NonZeroIds(adds) == Ids(adds)
  {
    if adds != [] {
      var pre, last := adds[..|adds| - 1], adds[|adds| - 1];
      IdsMeaning(pre);
      assert Ids(adds) == Ids(pre) + [last.id];
    }
  }

  /**
   What a batch says: the query, and then the inserts' texts, joined by newlines, but put one after the other in
   RowBinary. TabSeparated counts the lines of those texts, every other format the texts.
   */
  lemma BatchMeaning(params: string, query: string, format: string, adds: seq<Insert>)
    requires adds != []
    ensures var req := RequestOf(params, query, format, adds);
            && req.params == params && req.query == query
            && req.content == query + "\n" + Join(Texts(adds), if format == "RowBinary" then "" else "\n")
            && req.count == if format == "TabSeparated" then |Split(Join(Texts(adds), "\n"), "\n")| else |adds|
  {
    if format == TAB_SEPARATED {
      RowsAreLines(adds);
    } else {
      RowsAreTexts(format, adds);
    }
  }

  /** When no timer fires, every group that left has enough rows to leave, and had too few before its last insert. */
  lemma {:induction false} GroupsAreFull(format: string, flushCount: int, calls: seq<Call>)
    requires flushCount >= 1 && forall c | c in calls :: c.Arrive?
    ensures forall g | g in After(format, flushCount, calls).done ::
              && g != [] && |AllRows(format, g)| >= flushCount
              && |AllRows(format, g[..|g| - 1])| < flushCount
  {
    hide AllRows;
    if calls != [] {
      var pre, c := calls[..|calls| - 1], calls[|calls| - 1];
      GroupsAreFull(format, flushCount, pre);
      AddsConserved(format, flushCount, pre);
      var b := After(format, flushCount, pre);
      assert (b.held + [c.a])[..|b.held|] == b.held;
    }
  }
}
