/** Reading the call structure back from a transaction's flat log. */
module Logs {
  import opened Numbers

  type Program = string
  type Bytes = seq<int>

  const LATERITE: Program := "LatBPQotoZgdg8rsyBrCiy6qyqeALs185Z4pjkFTfZf"

  /** A log line: a program invoked, its success or failure, data it logged, or any other line. */
  datatype Line =
    | Invoke(program: Program)
    | Success(program: Program)
    | Failure(program: Program)
    | Data(bytes: Bytes)
    | Other

  /** What a transaction executes: lines and invocations in order, each invocation with what it executes itself. */
  datatype Trace =
    | Done
    | Noise(rest: Trace)
    | Logged(bytes: Bytes, rest: Trace)
    | Invocation(program: Program, body: Trace, succeeds: bool, rest: Trace)

  /** The log of a trace. */
  function Log(t: Trace): seq<Line> {
    match t
    case Done => []
    case Noise(rest) => [Other] + Log(rest)
    case Logged(bytes, rest) => [Data(bytes)] + Log(rest)
    case Invocation(program, body, succeeds, rest) =>
      [Invoke(program)] + (Log(body) + ([if succeeds then Success(program) else Failure(program)] + Log(rest)))
  }

  /** `Array.pop`, which leaves an empty array empty. */
  function Popped(stack: seq<Program>): seq<Program> {
    if stack == [] then [] else stack[..|stack| - 1]
  }

  // The first failure

  /** The path to the first invocation that fails, outermost first: an invocation fails after everything inside it. */
  function FirstFailure(t: Trace, path: seq<Program>): Option<seq<Program>> {
    match t
    case Done => None
    case Noise(rest) => FirstFailure(rest, path)
    case Logged(_, rest) => FirstFailure(rest, path)
    case Invocation(program, body, succeeds, rest) =>
      var inside := FirstFailure(body, path + [program]);
      if inside.Some? then inside
      else if !succeeds then Some(path + [program])
      else FirstFailure(rest, path)
  }

  /** What the loop returns from `lines` with `stack` running. */
  function FailingFrom(lines: seq<Line>, stack: seq<Program>): seq<Program> {
    if lines == [] then stack
    else
      match lines[0]
      case Invoke(program) => FailingFrom(lines[1..], stack + [program])
      case Failure(program) =>
        if stack != [] && stack[|stack| - 1] == program then stack else FailingFrom(lines[1..], stack)
      case Success(_) => FailingFrom(lines[1..], Popped(stack))
      case _ => FailingFrom(lines[1..], stack)
  }

  method FailingInvocation(logs: seq<Line>) returns (stack: seq<Program>)
    ensures stack == FailingFrom(logs, [])
  {
    stack := [];
    var i := 0;
    while i < |logs|
      invariant 0 <= i <= |logs|
      invariant FailingFrom(logs, []) == FailingFrom(logs[i..], stack)
    {
      var line := logs[i];
      assert logs[i..][1..] == logs[i + 1..];
      i := i + 1;
      if line.Invoke? {
        stack := stack + [line.program];
        continue;
      }
      if line.Failure? && stack != [] && stack[|stack| - 1] == line.program {
        return;
      }
      if line.Success? {
        stack := Popped(stack);
      }
    }
  }

  /** An invocation's log line by line, with what follows it. */
  lemma LogOfInvocation(program: Program, body: Trace, succeeds: bool, rest: Trace, tail: seq<Line>)
    ensures var end := if succeeds then Success(program) else Failure(program);
            Log(Invocation(program, body, succeeds, rest)) + tail
            == [Invoke(program)] + (Log(body) + ([end] + (Log(rest) + tail)))
  {
  }

  lemma FailingFromLine(line: Line, lines: seq<Line>, stack: seq<Program>)
    ensures FailingFrom([line] + lines, stack)
            == if line.Invoke? then FailingFrom(lines, stack + [line.program])
               else if line.Failure? && stack != [] && stack[|stack| - 1] == line.program then stack
               else if line.Success? then FailingFrom(lines, Popped(stack))
               else FailingFrom(lines, stack)
  {
    assert ([line] + lines)[1..] == lines;
  }

  lemma {:induction false} FailingFromLog(t: Trace, tail: seq<Line>, path: seq<Program>)
    ensures FailingFrom(Log(t) + tail, path)
            == match FirstFailure(t, path) case Some(failed) => failed case None => FailingFrom(tail, path)
  {
    hide FailingFrom;
    match t
    case Done =>
      assert Log(t) + tail == tail;
    case Noise(rest) =>
      assert Log(t) + tail == [Other] + (Log(rest) + tail);
      FailingFromLine(Other, Log(rest) + tail, path);
      FailingFromLog(rest, tail, path);
    case Logged(bytes, rest) =>
      assert Log(t) + tail == [Data(bytes)] + (Log(rest) + tail);
      FailingFromLine(Data(bytes), Log(rest) + tail, path);
      FailingFromLog(rest, tail, path);
    case Invocation(program, body, succeeds, rest) =>
      var end := if succeeds then Success(program) else Failure(program);
      var inside := Log(body) + ([end] + (Log(rest) + tail));
      LogOfInvocation(program, body, succeeds, rest, tail);
      FailingFromLine(Invoke(program), inside, path);
      FailingFromLog(body, [end] + (Log(rest) + tail), path + [program]);
      FailingFromLine(end, Log(rest) + tail, path + [program]);
      assert Popped(path + [program]) == path;
      FailingFromLog(rest, tail, path);
  }

  /** For the log of every trace, the result is the path to the first invocation that failed, and empty if none did. */
  lemma FailingInvocationIsFirst(t: Trace)
    ensures FailingFrom(Log(t), [])
            == match FirstFailure(t, []) case Some(path) => path case None => []
  {
    FailingFromLog(t, [], []);
    assert Log(t) + [] == Log(t);
  }

  // Any lines at all, of a log or not

  /** The programs that the lines leave running, outermost first, if a failure ends one only where `failuresEnd`. */
  function Running(lines: seq<Line>, failuresEnd: bool): seq<Program> {
    if lines == [] then []
    else
      var before, line := Running(lines[..|lines| - 1], failuresEnd), lines[|lines| - 1];
      if line.Invoke? then before + [line.program]
      else if (line.Success? || (line.Failure? && failuresEnd)) && before != [] then before[..|before| - 1]
      else before
  }

  /** Line `i` says that the innermost program running has failed. */
  predicate FailsAt(lines: seq<Line>, i: nat)
    requires i < |lines|
  {
    var running := Running(lines[..i], false);
    running != [] && lines[i] == Failure(running[|running| - 1])
  }

  /** Of any lines, the result is what runs where the innermost program first fails, or what the lines leave running. */
  lemma FailingIsAtFirst(lines: seq<Line>) returns (i: nat)
    ensures i <= |lines| && (i < |lines| ==> FailsAt(lines, i)) && forall j :: 0 <= j < i ==> !FailsAt(lines, j)
    ensures FailingFrom(lines, []) == Running(lines[..i], false)
  {
    i := FailingFromRest(lines, 0);
    assert lines[0..] == lines;
  }

  lemma {:induction false} FailingFromRest(lines: seq<Line>, k: nat) returns (i: nat)
    requires k <= |lines| && forall j :: 0 <= j < k ==> !FailsAt(lines, j)
    ensures i <= |lines| && (i < |lines| ==> FailsAt(lines, i)) && forall j :: 0 <= j < i ==> !FailsAt(lines, j)
    ensures FailingFrom(lines[k..], Running(lines[..k], false)) == Running(lines[..i], false)
    decreases |lines| - k
  {
    i := k;
    if k < |lines| {
      assert lines[k..] == [lines[k]] + lines[k + 1..];
      FailingFromLine(lines[k], lines[k + 1..], Running(lines[..k], false));
      if !FailsAt(lines, k) {
        assert lines[..k + 1][..k] == lines[..k];
        i := FailingFromRest(lines, k + 1);
      }
    }
  }

  // Laterite's own events

  /** The data a trace logs in Laterite's own frames, when the frame it is in is or is not Laterite's. */
  function OwnData(t: Trace, own: bool): seq<Bytes> {
    match t
    case Done => []
    case Noise(rest) => OwnData(rest, own)
    case Logged(bytes, rest) => (if own then [bytes] else []) + OwnData(rest, own)
    case Invocation(program, body, _, rest) => OwnData(body, program == LATERITE) + OwnData(rest, own)
  }

  predicate RunsLaterite(running: seq<Program>) {
    running != [] && running[|running| - 1] == LATERITE
  }

  function EventsFrom(lines: seq<Line>, running: seq<Program>): seq<Bytes> {
    if lines == [] then []
    else
      match lines[0]
      case Invoke(program) => EventsFrom(lines[1..], running + [program])
      case Success(_) => EventsFrom(lines[1..], Popped(running))
      case Failure(_) => EventsFrom(lines[1..], Popped(running))
      case Data(bytes) => (if RunsLaterite(running) then [bytes] else []) + EventsFrom(lines[1..], running)
      case Other => EventsFrom(lines[1..], running)
  }

  method GetLateriteLogEvents(logs: seq<Line>) returns (events: seq<Bytes>)
    ensures events == EventsFrom(logs, [])
  {
    var running: seq<Program> := [];
    events := [];
    var i := 0;
    while i < |logs|
      invariant 0 <= i <= |logs|
      invariant EventsFrom(logs, []) == events + EventsFrom(logs[i..], running)
    {
      var line := logs[i];
      assert logs[i..][1..] == logs[i + 1..];
      i := i + 1;
      if line.Invoke? {
        running := running + [line.program];
      } else if line.Success? || line.Failure? {
        running := Popped(running);
      } else if line.Data? && RunsLaterite(running) {
        events := events + [line.bytes];
      }
    }
  }

  lemma EventsFromLine(line: Line, lines: seq<Line>, running: seq<Program>)
    ensures EventsFrom([line] + lines, running)
            == if line.Invoke? then EventsFrom(lines, running + [line.program])
               else if line.Success? || line.Failure? then EventsFrom(lines, Popped(running))
               else (if line.Data? && RunsLaterite(running) then [line.bytes] else []) + EventsFrom(lines, running)
  {
    assert ([line] + lines)[1..] == lines;
  }

  lemma Regroup(a: seq<Bytes>, b: seq<Bytes>, c: seq<Bytes>)
    ensures a + (b + c) == (a + b) + c
  {
  }

  lemma {:induction false} EventsFromLog(t: Trace, tail: seq<Line>, running: seq<Program>)
    ensures EventsFrom(Log(t) + tail, running) == OwnData(t, RunsLaterite(running)) + EventsFrom(tail, running)
  {
    hide EventsFrom;
    match t
    case Done =>
      assert Log(t) + tail == tail;
    case Noise(rest) =>
      assert Log(t) + tail == [Other] + (Log(rest) + tail);
      EventsFromLine(Other, Log(rest) + tail, running);
      EventsFromLog(rest, tail, running);
    case Logged(bytes, rest) =>
      assert Log(t) + tail == [Data(bytes)] + (Log(rest) + tail);
      EventsFromLine(Data(bytes), Log(rest) + tail, running);
      EventsFromLog(rest, tail, running);
      var own := if RunsLaterite(running) then [bytes] else [];
      Regroup(own, OwnData(rest, RunsLaterite(running)), EventsFrom(tail, running));
    case Invocation(program, body, succeeds, rest) =>
      var end := if succeeds then Success(program) else Failure(program);
      var inside := Log(body) + ([end] + (Log(rest) + tail));
      LogOfInvocation(program, body, succeeds, rest, tail);
      EventsFromLine(Invoke(program), inside, running);
      EventsFromLog(body, [end] + (Log(rest) + tail), running + [program]);
      EventsFromLine(end, Log(rest) + tail, running + [program]);
      assert Popped(running + [program]) == running;
      EventsFromLog(rest, tail, running);
      assert RunsLaterite(running + [program]) == (program == LATERITE);
      Regroup(OwnData(body, program == LATERITE), OwnData(rest, RunsLaterite(running)), EventsFrom(tail, running));
  }

  /** For the log of every trace, the events are exactly the data Laterite's own frames logged, in order. */
  lemma EventsAreLaterites(t: Trace)
    ensures EventsFrom(Log(t), []) == OwnData(t, false)
  {
    EventsFromLog(t, [], []);
    assert Log(t) + [] == Log(t);
  }

  /** The data of the lines that come while Laterite runs innermost. */
  function DataOf(lines: seq<Line>): seq<Bytes> {
    if lines == [] then []
    else
      var rest, line := lines[..|lines| - 1], lines[|lines| - 1];
      var running := Running(rest, true);
      DataOf(rest)
      + if line.Data? && running != [] && running[|running| - 1] == LATERITE then [line.bytes] else []
  }

  /** Of any lines, the events are those data, in order. */
  lemma EventsAreDataOf(lines: seq<Line>)
    ensures EventsFrom(lines, []) == DataOf(lines)
  {
    EventsFromRest(lines, 0);
    assert lines[0..] == lines;
    assert lines[..|lines|] == lines;
  }

  lemma {:induction false} EventsFromRest(lines: seq<Line>, k: nat)
    requires k <= |lines|
    ensures DataOf(lines[..k]) + EventsFrom(lines[k..], Running(lines[..k], true)) == DataOf(lines[..|lines|])
    decreases |lines| - k
  {
    if k < |lines| {
      assert lines[k..] == [lines[k]] + lines[k + 1..];
      EventsFromLine(lines[k], lines[k + 1..], Running(lines[..k], true));
      assert lines[..k + 1][..k] == lines[..k];
      EventsFromRest(lines, k + 1);
    }
  }
}
