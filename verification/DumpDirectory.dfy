/** The dump directory of a sender as a transition system: what is written to it, sent from it, moved and removed. */
module DumpDirectory {
  import opened Options
  import opened Text
  import DumpName
  import DumpCodec

  // The files and their text; the files locked and those sent with success in this process, and as what.
  datatype Dir = Dir(
    pending: map<string, string>, failed: map<string, string>,
    locked: set<string>, sent: map<string, DumpCodec.Payload>)

  datatype Label =
    | Wrote(file: string, text: string)    // Dump: the whole text, or the part of it that reached the file
    | Pruned(file: string)                 // Dump, with a limit on the number of files
    | Moved(file: string)                  // ProcessNextDump: to failed/
    | Sent(file: string)                   // ProcessNextDump: the send succeeded
    | Locked(file: string)                 // ProcessNextDump: the file could not be removed
    | Removed(file: string)                // ProcessNextDump
    | Retried(file: string)                // ReplayFailed: the send succeeded
    | Dropped(file: string)                // ReplayFailed: the file is removed from failed/

  // What a replay makes of a file.
  function Read(text: string): DumpCodec.Payload {
    DumpCodec.Parse(DumpCodec.ReadData(text))
  }

  // Nothing is sent for a file that parses to nothing.
  predicate HasPayload(text: string) {
    var p := Read(text);
    !(p.content == "" && p.query == "" && p.params == "")
  }

  function Names(d: Dir): set<string> {
    d.pending.Keys + d.failed.Keys + d.locked + d.sent.Keys
  }

  predicate Enabled(d: Dir, l: Label) {
    match l
    case Wrote(_, _) => true
    case Pruned(f) => f in d.pending
    case Moved(f) => f in d.pending && f !in d.locked && DumpName.IsClientError(f)
    case Sent(f) =>
      f in d.pending && f !in d.locked + d.sent.Keys && !DumpName.IsClientError(f) && HasPayload(d.pending[f])
    case Locked(f) => f in d.pending && (f in d.sent || !HasPayload(d.pending[f]))
    case Removed(f) => f in d.pending && f !in d.locked && (f in d.sent || !HasPayload(d.pending[f]))
    case Retried(f) => f in d.failed && HasPayload(d.failed[f])
    case Dropped(f) => f in d.failed && (f in d.sent || !HasPayload(d.failed[f]))
  }

  function Apply(d: Dir, l: Label): Dir
    requires Enabled(d, l)
  {
    match l
    case Wrote(f, text) => d.(pending := d.pending[f := text])
    case Pruned(f) => d.(pending := d.pending - {f})
    case Moved(f) => d.(failed := d.failed[f := d.pending[f]], pending := d.pending - {f})
    case Sent(f) => d.(sent := d.sent[f := Read(d.pending[f])])
    case Locked(f) => d.(locked := d.locked + {f})
    case Removed(f) => d.(pending := d.pending - {f})
    case Retried(f) => d.(sent := d.sent[f := Read(d.failed[f])])
    case Dropped(f) => d.(failed := d.failed - {f})
  }

  // The directory after a list of steps, if each of them is enabled.
  function Exec(d: Dir, labels: seq<Label>): Option<Dir> {
    if labels == [] then Some(d) else Next(Exec(d, labels[..|labels| - 1]), labels[|labels| - 1])
  }

  function Next(before: Option<Dir>, l: Label): Option<Dir> {
    if before.Some? && Enabled(before.value, l) then Some(Apply(before.value, l)) else None
  }

  lemma ExecNone(d: Dir)
    ensures Exec(d, []) == Some(d)
  {
  }

  lemma ExecSnoc(d: Dir, labels: seq<Label>, l: Label)
    requires Exec(d, labels).Some? && Enabled(Exec(d, labels).value, l)
    ensures Exec(d, labels + [l]) == Some(Apply(Exec(d, labels).value, l))
  {
    assert (labels + [l])[..|labels|] == labels;
  }

  lemma ExecOne(d: Dir, l: Label)
    requires Enabled(d, l)
    ensures Exec(d, [l]) == Some(Apply(d, l))
  {
    ExecSnoc(d, [], l);
    assert [] + [l] == [l];
  }

  lemma ExecTwo(d: Dir, k: Label, l: Label)
    requires Enabled(d, k) && Enabled(Apply(d, k), l)
    ensures Exec(d, [k, l]) == Some(Apply(Apply(d, k), l))
  {
    ExecOne(d, k);
    ExecSnoc(d, [k], l);
    assert [k] + [l] == [k, l];
  }

  lemma {:induction false} ExecConcat(d: Dir, a: seq<Label>, b: seq<Label>)
    requires Exec(d, a).Some?
    ensures Exec(d, a + b) == Exec(Exec(d, a).value, b)
  {
    hide Next;
    if b == [] {
      assert a + b == a;
    } else {
      ExecConcat(d, a, b[..|b| - 1]);
      assert (a + b)[..|a + b| - 1] == a + b[..|b| - 1];
    }
  }

  // ---------------------------------------------------------------- what becomes of a dump

  // The file is in the directory or in failed/ with its text.
  predicate Holds(d: Dir, f: string, text: string) {
    (f in d.pending && d.pending[f] == text) || (f in d.failed && d.failed[f] == text)
  }

  // The step neither prunes the file nor writes another under its name.
  predicate Spares(l: Label, f: string) {
    l != Pruned(f) && !(l.Wrote? && l.file == f)
  }

  // The file is held, or was sent as what it says; and nothing else goes by its name.
  predicate Traced(d: Dir, f: string, text: string) {
    && (f in d.pending ==> d.pending[f] == text)
    && (f in d.failed ==> d.failed[f] == text)
    && (f in d.sent ==> d.sent[f] == Read(text))
    && f in d.pending.Keys + d.failed.Keys + d.sent.Keys
  }

  lemma TracedStep(d: Dir, l: Label, f: string, text: string)
    requires Traced(d, f, text) && Enabled(d, l) && HasPayload(text) && Spares(l, f)
    ensures Traced(Apply(d, l), f, text)
  {
    hide Read, DumpName.IsClientError;
  }

  lemma {:induction false} TracedRun(d: Dir, labels: seq<Label>, f: string, text: string)
    requires Traced(d, f, text) && Exec(d, labels).Some? && HasPayload(text)
    requires forall i | 0 <= i < |labels| :: Spares(labels[i], f)
    ensures Traced(Exec(d, labels).value, f, text)
  {
    hide Traced, Enabled, Apply, HasPayload;
    if labels != [] {
      var pre, l := labels[..|labels| - 1], labels[|labels| - 1];
      TracedRun(d, pre, f, text);
      TracedStep(Exec(d, pre).value, l, f, text);
    }
  }

  // A replay of the file tells what was dumped.
  predicate TellsAs(p: DumpCodec.Payload, params: string, content: string) {
    p.params == params && p.content == content && (params != "" || content != "")
  }

  /**
   A dumped batch stays: after its dump under a new name, in any run that does not prune it or write over it, the file
   is in the directory or in failed/ with its text, or a send of exactly what was dumped has succeeded, provided that
   the dump reads back, which is a condition on params, content and response.
   */
  lemma DumpedStays(
      d: Dir, f: string, params: string, content: string, response: string, labels: seq<Label>)
    requires f !in Names(d) && forall i | 0 <= i < |labels| :: Spares(labels[i], f)
    requires '\n' !in params && !HasPrefix(params, "insert") && (params != "" || content != "")
    requires !Occurs(DumpCodec.Guarded(params, content, response), DumpCodec.MARK)
    requires Exec(Apply(d, Wrote(f, DumpCodec.Encode(params, content, response))), labels).Some?
    ensures var text := DumpCodec.Encode(params, content, response);
            var e := Exec(Apply(d, Wrote(f, text)), labels).value;
            Holds(e, f, text) || (f in e.sent && TellsAs(e.sent[f], params, content))
  {
    var text := DumpCodec.Encode(params, content, response);
    DumpCodec.RoundTrip(params, content, response);
    assert HasPayload(text);
    hide HasPayload, Read, Exec, DumpCodec.Encode;
    TracedRun(Apply(d, Wrote(f, text)), labels, f, text);
  }

  /**
   And only then: a replay that goes well takes the file out of the directory, and what was sent is what was dumped if
   and only if the dump reads back.
   */
  lemma ReplayTells(d: Dir, f: string, params: string, content: string, response: string)
    requires f !in Names(d) && !DumpName.IsClientError(f)
    requires HasPayload(DumpCodec.Encode(params, content, response)) && (params != "" || content != "")
    ensures var text := DumpCodec.Encode(params, content, response);
            var e := Exec(Apply(d, Wrote(f, text)), [Sent(f), Removed(f)]);
            && e.Some? && !Holds(e.value, f, text) && f in e.value.sent
            && (TellsAs(e.value.sent[f], params, content)
                <==> '\n' !in params && !HasPrefix(params, "insert")
                     && !Occurs(DumpCodec.Guarded(params, content, response), DumpCodec.MARK))
  {
    var text := DumpCodec.Encode(params, content, response);
    DumpCodec.RoundTrip(params, content, response);
    hide HasPayload, DumpCodec.Encode, DumpName.IsClientError, Exec;
    ExecTwo(Apply(d, Wrote(f, text)), Sent(f), Removed(f));
  }
}
