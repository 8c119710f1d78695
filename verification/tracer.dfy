/** The test-lifecycle tracer of `FunqPlugin` (py/funq/noseplugin.py): the
    stored name of the running test, and the `beforeTest`/`afterTest` hooks
    that each write a three-line block to the log and, when tracing is on,
    append the same block to the trace file.  The log and the trace file are
    append-only sequences; a hook returns the new state and the new outputs. */
module Tracer {
  import opened Wrappers
  import opened Text
  import Options

  const SEP_WIDTH := 70

  /** The separator line that frames every block: `'-' * 70`. */
  function Separator(): (s: string)
    ensures |s| == SEP_WIDTH
    ensures forall i :: 0 <= i < |s| ==> s[i] == '-'
  {
    seq(SEP_WIDTH, _ => '-')
  }

  /** `message_with_sep(m)`: the message framed by two separator lines. */
  function MessageWithSep(m: string): (lines: seq<string>)
    ensures |lines| == 3
    ensures lines[0] == Separator() && lines[2] == Separator()
    ensures lines[1] == m
  {
    [Separator(), m, Separator()]
  }

  /** What the trace settings stored by `configure` hold: the trace-file path
      (possibly `None` or empty) and its text encoding. */
  datatype TraceSettings = TraceSettings(path: Option<string>, encoding: string)

  /** `if self.trace_tests:` — tracing is on when the path is set and
      non-empty. */
  predicate Tracing(s: TraceSettings) {
    Options.Truthy(s.path)
  }

  /** The tracer's state: the class-wide current-test slot and the plugin's
      trace settings. */
  datatype TracerState = TracerState(current: Option<string>, settings: TraceSettings)

  /** The two append-only sinks: the lines sent to the log at info level, and
      the records appended to the trace file, one per hook. */
  datatype Output = Output(log: seq<string>, file: seq<string>)

  /** The state before any test: the class attribute `_current_test_name`
      starts as `None`. */
  function Init(settings: TraceSettings): (t: TracerState)
    ensures CurrentTestName(t) == None && t.settings == settings
  {
    TracerState(None, settings)
  }

  /** `current_test_name()`: the name the last `beforeTest` stored, or `None`
      once `afterTest` has cleared it. */
  function CurrentTestName(t: TracerState): (r: Option<string>)
    ensures r == t.current
  {
    t.current
  }

  /** The life of the stored name from the initial state: none before any
      test, the test's id once `beforeTest` ran, none again after `afterTest`. */
  lemma CurrentTestNameLifecycle(s: TraceSettings, out: Output, id: string, x: string)
    ensures CurrentTestName(Init(s)) == None
    ensures var (t1, o1) := BeforeTest(Init(s), out, id);
      && CurrentTestName(t1) == Some(id)
      && CurrentTestName(AfterTest(t1, o1, x).0) == None
  {
  }

  /** How `%s` renders the stored name; `None` prints as `None`. */
  function Display(name: Option<string>): string {
    match name
    case Some(n) => n
    case None => "None"
  }

  const START_PREFIX := "Démarrage de test `"
  const END_PREFIX := "Fin de test `"

  /** The message `beforeTest` logs: the prefix, the test name and a closing
      backquote. */
  function StartMessage(name: string): (m: string)
    ensures |m| == |START_PREFIX| + |name| + 1 && m[|m| - 1] == '`'
  {
    START_PREFIX + name + "`"
  }

  /** The message `afterTest` logs for the stored name; with no name stored
      it reads ``Fin de test `None` ``. */
  function EndMessage(name: Option<string>): (m: string)
    ensures |m| == |END_PREFIX| + |Display(name)| + 1 && m[|m| - 1] == '`'
    ensures name.None? ==> m == "Fin de test `None`"
  {
    END_PREFIX + Display(name) + "`"
  }

  /** The test name can be read back from a start message, between the
      opening prefix and the closing backquote. */
  lemma StartMessageReadBack(name: string)
    ensures StartMessage(name)[..|START_PREFIX|] == START_PREFIX
    ensures StartMessage(name)[|START_PREFIX|..|StartMessage(name)| - 1] == name
  {
  }

  /** Likewise for an end message and the stored name it was given. */
  lemma EndMessageReadBack(name: string)
    ensures EndMessage(Some(name))[..|END_PREFIX|] == END_PREFIX
    ensures EndMessage(Some(name))[|END_PREFIX|..|EndMessage(Some(name))| - 1] == name
  {
  }

  /** What one hook writes to the trace file: `'\n'.join(lines)` and then
      `'\n'`. */
  function Record(lines: seq<string>): string {
    JoinLines(lines) + "\n"
  }

  /** Logs the lines in order and, only when tracing is on, appends their
      record to the trace file. */
  function Emit(s: TraceSettings, out: Output, lines: seq<string>): (r: Output)
    ensures |r.log| == |out.log| + |lines|
    ensures r.log[..|out.log|] == out.log && r.log[|out.log|..] == lines
    ensures Tracing(s) ==> |r.file| == |out.file| + 1 && r.file[..|out.file|] == out.file
    ensures Tracing(s) ==> r.file[|out.file|] == Record(lines)
    ensures !Tracing(s) ==> r.file == out.file
  {
    Output(out.log + lines, if Tracing(s) then out.file + [Record(lines)] else out.file)
  }

  /** `beforeTest`: stores the test id as the current name, then emits the
      start block for it. */
  function BeforeTest(t: TracerState, out: Output, testId: string): (r: (TracerState, Output))
    ensures CurrentTestName(r.0) == Some(testId)
    ensures r.0.settings == t.settings
    ensures r.1 == Emit(t.settings, out, MessageWithSep(StartMessage(testId)))
    ensures |r.1.log| == |out.log| + 3 && r.1.log[..|out.log|] == out.log
    ensures r.1.log[|out.log|] == Separator() && r.1.log[|out.log| + 2] == Separator()
    ensures r.1.log[|out.log| + 1] == StartMessage(testId)
    ensures Tracing(t.settings) <==> |r.1.file| == |out.file| + 1
    ensures !Tracing(t.settings) ==> r.1.file == out.file
  {
    var t' := t.(current := Some(testId));
    (t', Emit(t.settings, out, MessageWithSep(StartMessage(CurrentTestName(t').value))))
  }

  /** `afterTest`: emits the end block for the STORED name (the `test`
      argument is not consulted), then clears the stored name. */
  function AfterTest(t: TracerState, out: Output, test: string): (r: (TracerState, Output))
    ensures CurrentTestName(r.0) == None
    ensures r.0.settings == t.settings
    ensures r.1 == Emit(t.settings, out, MessageWithSep(EndMessage(t.current)))
    ensures |r.1.log| == |out.log| + 3 && r.1.log[..|out.log|] == out.log
    ensures r.1.log[|out.log|] == Separator() && r.1.log[|out.log| + 2] == Separator()
    ensures r.1.log[|out.log| + 1] == EndMessage(t.current)
    ensures Tracing(t.settings) <==> |r.1.file| == |out.file| + 1
    ensures !Tracing(t.settings) ==> r.1.file == out.file
  {
    var out' := Emit(t.settings, out, MessageWithSep(EndMessage(CurrentTestName(t))));
    (t.(current := None), out')
  }

  /** The end block depends on the stored name only: whatever test the host
      passes, the same block is written. */
  lemma AfterTestIgnoresArgument(t: TracerState, out: Output, a: string, b: string)
    ensures AfterTest(t, out, a) == AfterTest(t, out, b)
  {
  }

  /** Unguarded calls: a second `beforeTest` overwrites the first name, and an
      `afterTest` with no stored name reports `None`. */
  lemma OutOfOrderCalls(t: TracerState, out: Output, a: string, b: string)
    ensures var (t1, o1) := BeforeTest(t, out, a);
            CurrentTestName(BeforeTest(t1, o1, b).0) == Some(b)
    ensures t.current == None ==>
            AfterTest(t, out, a).1.log[|out.log| + 1] == "Fin de test `None`"
  {
  }

  /** A record read back from the trace file splits into the block's three
      lines, given a test name without line breaks. */
  lemma RecordLines(m: string)
    requires SingleLine(m)
    ensures var rec := Record(MessageWithSep(m));
            |rec| > 0 && rec[|rec| - 1] == '\n' && SplitLines(rec[..|rec| - 1]) == MessageWithSep(m)
  {
    var lines := MessageWithSep(m);
    assert SingleLine(Separator());
    SplitJoin(lines);
    var rec := Record(lines);
    assert rec[..|rec| - 1] == JoinLines(lines);
  }

  /** A lifecycle call made by the host. */
  datatype Event = Before(id: string) | After(id: string)

  function ApplyEvent(t: TracerState, out: Output, e: Event): (TracerState, Output) {
    match e
    case Before(id) => BeforeTest(t, out, id)
    case After(id) => AfterTest(t, out, id)
  }

  /** The hooks applied to the events in order. */
  function Run(t: TracerState, out: Output, events: seq<Event>): (TracerState, Output)
    decreases |events|
  {
    if |events| == 0 then (t, out)
    else
      var (t', out') := ApplyEvent(t, out, events[0]);
      Run(t', out', events[1..])
  }

  /** A well-behaved host: one `beforeTest`/`afterTest` pair per test, in order. */
  function Pairs(ids: seq<string>): seq<Event> {
    if |ids| == 0 then [] else [Before(ids[0]), After(ids[0])] + Pairs(ids[1..])
  }

  /** The block `beforeTest` emits for a test, and the one a matching
      `afterTest` emits for it. */
  function StartBlock(id: string): seq<string> {
    MessageWithSep(StartMessage(id))
  }

  function EndBlock(id: string): seq<string> {
    MessageWithSep(EndMessage(Some(id)))
  }

  function PairBlocks(id: string): seq<seq<string>> {
    [StartBlock(id), EndBlock(id)]
  }

  /** The blocks a well-behaved session should emit: a start and an end block
      per test, in call order. */
  function Transcript(ids: seq<string>): (blocks: seq<seq<string>>)
    ensures |blocks| == 2 * |ids|
  {
    if |ids| == 0 then [] else PairBlocks(ids[0]) + Transcript(ids[1..])
  }

  /** Block 2i of the transcript starts test i and block 2i+1 ends it, naming
      the same test. */
  lemma {:induction false} TranscriptIndex(ids: seq<string>, i: nat)
    requires i < |ids|
    ensures Transcript(ids)[2 * i] == StartBlock(ids[i])
    ensures Transcript(ids)[2 * i + 1] == EndBlock(ids[i])
  {
    if i > 0 {
      TranscriptIndex(ids[1..], i - 1);
    }
  }

  /** Every transcript block has the three lines of `message_with_sep`. */
  lemma TranscriptBlockLength(ids: seq<string>)
    ensures forall j :: 0 <= j < |Transcript(ids)| ==> |Transcript(ids)[j]| == 3
  {
  }

  function Flatten<T>(blocks: seq<seq<T>>): seq<T> {
    if |blocks| == 0 then [] else blocks[0] + Flatten(blocks[1..])
  }

  function Records(blocks: seq<seq<string>>): (r: seq<string>)
    ensures |r| == |blocks|
  {
    if |blocks| == 0 then [] else [Record(blocks[0])] + Records(blocks[1..])
  }

  lemma {:induction false} FlattenAppend<T>(a: seq<seq<T>>, b: seq<seq<T>>)
    ensures Flatten(a + b) == Flatten(a) + Flatten(b)
  {
    if |a| == 0 {
      assert a + b == b;
    } else {
      assert (a + b)[0] == a[0];
      assert (a + b)[1..] == a[1..] + b;
      FlattenAppend(a[1..], b);
    }
  }

  lemma {:induction false} RecordsAppend(a: seq<seq<string>>, b: seq<seq<string>>)
    ensures Records(a + b) == Records(a) + Records(b)
  {
    if |a| == 0 {
      assert a + b == b;
    } else {
      assert (a + b)[0] == a[0];
      assert (a + b)[1..] == a[1..] + b;
      RecordsAppend(a[1..], b);
    }
  }

  /** What one well-behaved pair leaves in the sinks: its two blocks in the
      log and, when tracing is on, their two records in the file. */
  function PairOutput(s: TraceSettings, out: Output, id: string): Output {
    Output(out.log + Flatten(PairBlocks(id)),
           out.file + (if Tracing(s) then Records(PairBlocks(id)) else []))
  }

  lemma PairEffect(t: TracerState, out: Output, id: string)
    ensures var (t1, o1) := BeforeTest(t, out, id);
            AfterTest(t1, o1, id) == (t.(current := None), PairOutput(t.settings, out, id))
  {
    var b := PairBlocks(id);
    assert b[1..] == [EndBlock(id)];
    assert b[1..][1..] == [];
    assert Flatten(b[1..][1..]) == [];
    assert Flatten(b[1..]) == EndBlock(id) + [];
    assert Flatten(b) == StartBlock(id) + (EndBlock(id) + []);
    assert Records(b) == [Record(StartBlock(id))] + ([Record(EndBlock(id))] + []);
    var (t1, o1) := BeforeTest(t, out, id);
    var (t2, o2) := AfterTest(t1, o1, id);
    assert o1.log == out.log + StartBlock(id);
    assert o2.log == (out.log + StartBlock(id)) + EndBlock(id);
    assert o2.log == out.log + Flatten(b);
    if Tracing(t.settings) {
      assert o2.file == (out.file + [Record(StartBlock(id))]) + [Record(EndBlock(id))];
      assert o2.file == out.file + Records(b);
    } else {
      assert o2.file == out.file + [];
    }
    assert o2 == PairOutput(t.settings, out, id);
    assert t2 == t.(current := None);
  }

  /** Running a session starts with its first pair. */
  lemma RunFirstPair(t: TracerState, out: Output, ids: seq<string>)
    requires |ids| > 0
    ensures Run(t, out, Pairs(ids)) ==
            Run(t.(current := None), PairOutput(t.settings, out, ids[0]), Pairs(ids[1..]))
  {
    var ev := Pairs(ids);
    assert ev[0] == Before(ids[0]);
    assert ev[1..][0] == After(ids[0]);
    assert ev[1..][1..] == Pairs(ids[1..]);
    PairEffect(t, out, ids[0]);
  }

  /** After a session of well-behaved pairs the settings are unchanged and
      no test name is stored. */
  lemma {:induction false} SessionState(t: TracerState, out: Output, ids: seq<string>)
    ensures Run(t, out, Pairs(ids)).0.settings == t.settings
    ensures |ids| > 0 ==> CurrentTestName(Run(t, out, Pairs(ids)).0) == None
    decreases |ids|
  {
    if |ids| == 0 {
      assert Pairs(ids) == [];
    } else {
      RunFirstPair(t, out, ids);
      SessionState(t.(current := None), PairOutput(t.settings, out, ids[0]), ids[1..]);
      if |ids| == 1 {
        assert Pairs(ids[1..]) == [];
      }
    }
  }

  /** A session of N well-behaved pairs logs exactly the transcript's 2N
      blocks, in call order. */
  lemma {:induction false} SessionLog(t: TracerState, out: Output, ids: seq<string>)
    ensures Run(t, out, Pairs(ids)).1.log == out.log + Flatten(Transcript(ids))
    decreases |ids|
  {
    if |ids| == 0 {
      assert Pairs(ids) == [];
    } else {
      var o2 := PairOutput(t.settings, out, ids[0]);
      RunFirstPair(t, out, ids);
      SessionLog(t.(current := None), o2, ids[1..]);
      var head, rest := PairBlocks(ids[0]), Transcript(ids[1..]);
      assert Transcript(ids) == head + rest;
      FlattenAppend(head, rest);
      assert Run(t, out, Pairs(ids)).1.log == (out.log + Flatten(head)) + Flatten(rest);
    }
  }

  /** When tracing is on, a session of N well-behaved pairs appends exactly
      the transcript's 2N records to the trace file, in call order; when it is
      off, the file is untouched. */
  lemma {:induction false} SessionFile(t: TracerState, out: Output, ids: seq<string>)
    ensures Run(t, out, Pairs(ids)).1.file ==
            out.file + (if Tracing(t.settings) then Records(Transcript(ids)) else [])
    decreases |ids|
  {
    if |ids| == 0 {
      assert Pairs(ids) == [];
    } else {
      var o2 := PairOutput(t.settings, out, ids[0]);
      RunFirstPair(t, out, ids);
      SessionFile(t.(current := None), o2, ids[1..]);
      var head, rest := PairBlocks(ids[0]), Transcript(ids[1..]);
      assert Transcript(ids) == head + rest;
      if Tracing(t.settings) {
        RecordsAppend(head, rest);
        assert Run(t, out, Pairs(ids)).1.file == (out.file + Records(head)) + Records(rest);
      } else {
        assert Run(t, out, Pairs(ids)).1.file == out.file;
      }
    }
  }

  lemma {:induction false} RecordsIndex(blocks: seq<seq<string>>, i: nat)
    requires i < |blocks|
    ensures Records(blocks)[i] == Record(blocks[i])
  {
    if i > 0 {
      RecordsIndex(blocks[1..], i - 1);
    }
  }

  /** With tracing on, the trace file gains, after what it held, the start
      record of test i at offset 2i and its end record at offset 2i+1. */
  lemma TranscriptRecordIndex(ids: seq<string>, i: nat)
    requires i < |ids|
    ensures |Records(Transcript(ids))| == 2 * |ids|
    ensures Records(Transcript(ids))[2 * i] == Record(StartBlock(ids[i]))
    ensures Records(Transcript(ids))[2 * i + 1] == Record(EndBlock(ids[i]))
  {
    var blocks := Transcript(ids);
    TranscriptIndex(ids, i);
    var start, end := blocks[2 * i], blocks[2 * i + 1];
    RecordsIndex(blocks, 2 * i);
    RecordsIndex(blocks, 2 * i + 1);
    assert Records(blocks)[2 * i] == Record(start);
    assert Records(blocks)[2 * i + 1] == Record(end);
  }

  lemma SessionRecordOrder(t: TracerState, out: Output, ids: seq<string>, i: nat)
    requires Tracing(t.settings) && i < |ids|
    ensures var file := Run(t, out, Pairs(ids)).1.file;
      && |file| == |out.file| + 2 * |ids|
      && file[|out.file| + 2 * i] == Record(StartBlock(ids[i]))
      && file[|out.file| + 2 * i + 1] == Record(EndBlock(ids[i]))
  {
    var recs := Records(Transcript(ids));
    SessionFile(t, out, ids);
    TranscriptRecordIndex(ids, i);
    var file := out.file + recs;
    assert file[|out.file| + 2 * i] == recs[2 * i];
    assert file[|out.file| + 2 * i + 1] == recs[2 * i + 1];
  }

  /** Counting form of the session property: 6N log lines, and 2N trace
      records when tracing is on. */
  lemma SessionCounts(t: TracerState, out: Output, ids: seq<string>)
    ensures var out' := Run(t, out, Pairs(ids)).1;
      && |out'.log| == |out.log| + 6 * |ids|
      && |out'.file| == |out.file| + (if Tracing(t.settings) then 2 * |ids| else 0)
  {
    SessionLog(t, out, ids);
    SessionFile(t, out, ids);
    TranscriptBlockLength(ids);
    FlattenLength(Transcript(ids));
  }

  lemma {:induction false} FlattenLength(blocks: seq<seq<string>>)
    requires forall i :: 0 <= i < |blocks| ==> |blocks[i]| == 3
    ensures |Flatten(blocks)| == 3 * |blocks|
  {
    if |blocks| > 0 {
      FlattenLength(blocks[1..]);
    }
  }
}
