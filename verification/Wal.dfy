/**
 The write-ahead log as a file of lines, and what its content means.

 A line is either a parsed journal record or one that json.Unmarshal rejects; it carries its byte length because the
 scanners have length limits. A file is a sequence of newline-terminated lines, possibly followed by bytes with no
 newline: what a write cut short leaves behind.
 */
module Wal {
  import opened Options

  // bufio.Scanner refuses a line of 64 KiB or more by default, and one of 1 MiB or more where the buffer is enlarged.
  const SCAN_LIMIT := 65536
  const REPLAY_LIMIT := 1048576

  datatype Record<+P> = Record(id: nat, payload: P)

  datatype Line<+P> = Line(parsed: Option<Record<P>>, size: nat)

  // A number of bytes that is not zero, and a line that has some: without a newline there is no empty line.
  type Positive = n: nat | n > 0 witness 1
  type Filled<+P> = l: Line<P> | l.size > 0 witness Line(None, 1)

  datatype File<+P> = File(lines: seq<Line<P>>, tail: Option<Filled<P>>)

  // What a scanner yields: an unterminated last line is a token too.
  function Tokens<P>(f: File<P>): seq<Line<P>> {
    f.lines + (if f.tail.Some? then [f.tail.value] else [])
  }

  predicate Fits<P>(ts: seq<Line<P>>, limit: nat) {
    forall i | 0 <= i < |ts| :: ts[i].size < limit
  }

  // A line not yet acknowledged.
  predicate Live<P>(l: Line<P>, acked: set<nat>) {
    l.parsed.Some? && l.parsed.value.id !in acked
  }

  // The pending records, in file order.
  function Unacked<P>(ts: seq<Line<P>>, acked: set<nat>): seq<Record<P>> {
    if ts == [] then []
    else
      var l := ts[|ts| - 1];
      var rest := Unacked(ts[..|ts| - 1], acked);
      if Live(l, acked) then rest + [l.parsed.value] else rest
  }

  // The lines a compaction writes back.
  function Keep<P>(ts: seq<Line<P>>, acked: set<nat>): (kept: seq<Line<P>>)
    ensures |kept| <= |ts|
    ensures forall l | l in kept :: l in ts && Live(l, acked)
  {
    if ts == [] then []
    else
      var l := ts[|ts| - 1];
      var rest := Keep(ts[..|ts| - 1], acked);
      if Live(l, acked) then rest + [l] else rest
  }

  // A log after one of its ids is acknowledged.
  function Without<P>(log: seq<Record<P>>, id: nat): seq<Record<P>> {
    if log == [] then []
    else
      var r := log[|log| - 1];
      var rest := Without(log[..|log| - 1], id);
      if r.id != id then rest + [r] else rest
  }

  function MaxId<P>(ts: seq<Line<P>>, floor: nat): (m: nat)
    ensures floor <= m
    ensures forall l | l in ts && l.parsed.Some? :: l.parsed.value.id <= m
  {
    if ts == [] then floor
    else
      var m := MaxId(ts[..|ts| - 1], floor);
      var l := ts[|ts| - 1];
      if l.parsed.Some? && l.parsed.value.id > m then l.parsed.value.id else m
  }

  function Ids<P>(ts: seq<Line<P>>): set<nat> {
    set i | 0 <= i < |ts| && ts[i].parsed.Some? :: ts[i].parsed.value.id
  }

  function LogIds<P>(log: seq<Record<P>>): set<nat> {
    set i | 0 <= i < |log| :: log[i].id
  }

  // Some line of the file holds this record and is not acknowledged.
  ghost predicate Holds<P>(ts: seq<Line<P>>, acked: set<nat>, r: Record<P>) {
    r.id !in acked && exists l | l in ts :: l.parsed == Some(r)
  }

  // Ids are handed out in increasing order, and compaction keeps the order.
  ghost predicate Increasing<P>(ts: seq<Line<P>>) {
    forall i, j | 0 <= i < j < |ts| && ts[i].parsed.Some? && ts[j].parsed.Some? ::
      ts[i].parsed.value.id < ts[j].parsed.value.id
  }

  ghost predicate Ascending<P>(log: seq<Record<P>>) {
    forall i, j | 0 <= i < j < |log| :: log[i].id < log[j].id
  }

  // How much of a line reached the file when its write was cut short.
  datatype Fragment = Nothing | Torn(bytes: Positive) | AllButNewline

  // Appending to a file whose last line has no newline glues the two together, and neither parses.
  function Glue<P>(tail: Filled<P>, size: nat): Filled<P> {
    Line(None, tail.size + size)
  }

  function WriteLine<P>(f: File<P>, l: Line<P>): File<P> {
    if f.tail.None? then File(f.lines + [l], None) else File(f.lines + [Glue(f.tail.value, l.size)], None)
  }

  function WriteFragment<P>(f: File<P>, l: Filled<P>, frag: Fragment): File<P> {
    match frag
    case Nothing => f
    case Torn(n) => f.(tail := Some(if f.tail.None? then Line(None, n) else Glue(f.tail.value, n)))
    case AllButNewline => f.(tail := Some(if f.tail.None? then l else Glue(f.tail.value, l.size)))
  }

  // ---------------------------------------------------------------- lemmas

  lemma UnackedSnoc<P>(ts: seq<Line<P>>, l: Line<P>, acked: set<nat>)
    ensures Unacked(ts + [l], acked)
         == if Live(l, acked) then Unacked(ts, acked) + [l.parsed.value] else Unacked(ts, acked)
    ensures Keep(ts + [l], acked) == if Live(l, acked) then Keep(ts, acked) + [l] else Keep(ts, acked)
  {
    assert (ts + [l])[..|ts|] == ts;
  }

  // Only the acknowledgements of ids the file holds matter.
  lemma {:induction false} UnackedAgree<P>(ts: seq<Line<P>>, a: set<nat>, b: set<nat>)
    requires forall id | id in Ids(ts) :: id in a <==> id in b
    ensures Unacked(ts, a) == Unacked(ts, b)
  {
    if ts != [] {
      var pre := ts[..|ts| - 1];
      assert forall id | id in Ids(pre) :: id in Ids(ts);
      UnackedAgree(pre, a, b);
      if ts[|ts| - 1].parsed.Some? {
        assert ts[|ts| - 1].parsed.value.id in Ids(ts);
      }
    }
  }

  // Reading a compacted file with further acknowledgements is reading the full file with both.
  lemma {:induction false} UnackedKeep<P>(ts: seq<Line<P>>, a: set<nat>, b: set<nat>)
    ensures Unacked(Keep(ts, a), b) == Unacked(ts, a + b)
  {
    if ts != [] {
      var pre, l := ts[..|ts| - 1], ts[|ts| - 1];
      UnackedKeep(pre, a, b);
      if Live(l, a) {
        UnackedSnoc(Keep(pre, a), l, b);
      }
    }
  }

  // One more acknowledgement removes exactly that id from the pending records.
  lemma {:induction false} UnackedAck<P>(ts: seq<Line<P>>, a: set<nat>, id: nat)
    ensures Unacked(ts, a + {id}) == Without(Unacked(ts, a), id)
  {
    if ts != [] {
      var pre, l := ts[..|ts| - 1], ts[|ts| - 1];
      UnackedAck(pre, a, id);
      if Live(l, a) {
        var log := Unacked(pre, a) + [l.parsed.value];
        assert log[..|log| - 1] == Unacked(pre, a);
      }
    }
  }

  lemma {:induction false} UnackedMember<P>(ts: seq<Line<P>>, a: set<nat>)
    ensures forall r :: r in Unacked(ts, a) <==> Holds(ts, a, r)
    ensures |Unacked(ts, a)| == |Keep(ts, a)|
  {
    if ts != [] {
      var pre, l := ts[..|ts| - 1], ts[|ts| - 1];
      UnackedMember(pre, a);
      assert forall k :: k in ts <==> k in pre || k == l;
    }
  }

  lemma UnackedIds<P>(ts: seq<Line<P>>, a: set<nat>)
    ensures LogIds(Unacked(ts, a)) == Ids(ts) - a
  {
    UnackedMember(ts, a);
    var log := Unacked(ts, a);
    forall id | id in Ids(ts) - a ensures id in LogIds(log) {
      var i :| 0 <= i < |ts| && ts[i].parsed.Some? && ts[i].parsed.value.id == id;
      assert Holds(ts, a, ts[i].parsed.value);
      var k :| 0 <= k < |log| && log[k] == ts[i].parsed.value;
    }
    forall id | id in LogIds(log) ensures id in Ids(ts) - a {
      var k :| 0 <= k < |log| && log[k].id == id;
      assert log[k] in log;
      var l :| l in ts && l.parsed == Some(log[k]);
    }
  }

  lemma IdsSnoc<P>(ts: seq<Line<P>>, l: Line<P>)
    ensures Ids(ts + [l]) == Ids(ts) + (if l.parsed.Some? then {l.parsed.value.id} else {})
  {
    var all := ts + [l];
    assert all[|ts|] == l;
    forall id | id in Ids(ts) ensures id in Ids(all) {
      var i :| 0 <= i < |ts| && ts[i].parsed.Some? && ts[i].parsed.value.id == id;
      assert all[i] == ts[i];
    }
  }

  lemma IncreasingSnoc<P>(ts: seq<Line<P>>, l: Line<P>)
    requires Increasing(ts) && l.parsed.Some? && forall id | id in Ids(ts) :: id < l.parsed.value.id
    ensures Increasing(ts + [l])
  {
    forall i | 0 <= i < |ts| && ts[i].parsed.Some? ensures ts[i].parsed.value.id < l.parsed.value.id {
      assert ts[i].parsed.value.id in Ids(ts);
    }
  }

  lemma LongerFits<P>(ts: seq<Line<P>>, l: Line<P>, limit: nat)
    requires Fits(ts, limit)
    ensures Fits(ts + [l], limit) <==> l.size < limit
  {
    assert (ts + [l])[|ts|] == l;
  }

  // Compaction keeps the order of ids.
  lemma {:induction false} KeepIncreasing<P>(ts: seq<Line<P>>, a: set<nat>)
    requires Increasing(ts)
    ensures Increasing(Keep(ts, a))
  {
    if ts != [] {
      var pre, l := ts[..|ts| - 1], ts[|ts| - 1];
      KeepIncreasing(pre, a);
      var kept := Keep(pre, a);
      if Live(l, a) {
        forall i | 0 <= i < |kept| ensures kept[i].parsed.Some? && kept[i].parsed.value.id < l.parsed.value.id
        {
          assert kept[i] in kept && kept[i] in pre;
          assert pre + [l] == ts;
        }
      }
    }
  }

  lemma KeepIds<P>(ts: seq<Line<P>>, a: set<nat>)
    ensures Ids(Keep(ts, a)) == Ids(ts) - a
  {
    UnackedKeep(ts, a, {});
    UnackedIds(Keep(ts, a), {});
    assert a + {} == a;
    UnackedIds(ts, a);
  }

  lemma {:induction false} WithoutMember<P>(log: seq<Record<P>>, id: nat)
    ensures forall r :: r in Without(log, id) <==> r in log && r.id != id
    ensures id !in LogIds(log) ==> Without(log, id) == log
  {
    if log != [] {
      var pre, r := log[..|log| - 1], log[|log| - 1];
      assert log == pre + [r];
      WithoutMember(pre, id);
      assert forall i | i in LogIds(pre) :: i in LogIds(log);
    }
  }

  // In a log with distinct ids, acknowledging a pending id removes exactly one record.
  lemma {:induction false} WithoutLength<P>(log: seq<Record<P>>, id: nat)
    requires Ascending(log)
    ensures |Without(log, id)| == |log| - (if id in LogIds(log) then 1 else 0)
  {
    if log != [] {
      var pre, r := log[..|log| - 1], log[|log| - 1];
      WithoutLength(pre, id);
      assert log == pre + [r];
      if id in LogIds(pre) {
        var i :| 0 <= i < |pre| && pre[i].id == id;
        assert log[i].id == id;
      }
    }
  }

  lemma {:induction false} UnackedDistinct<P>(ts: seq<Line<P>>, a: set<nat>)
    requires Increasing(ts)
    ensures Ascending(Unacked(ts, a))
  {
    if ts != [] {
      var pre, l := ts[..|ts| - 1], ts[|ts| - 1];
      UnackedDistinct(pre, a);
      UnackedMember(pre, a);
      var log := Unacked(pre, a);
      if Live(l, a) {
        forall i | 0 <= i < |log| ensures log[i].id < l.parsed.value.id {
          assert Holds(pre, a, log[i]);
          var k :| k in pre && k.parsed == Some(log[i]);
        }
      }
    }
  }
}
