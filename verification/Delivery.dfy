/**
 From the output of a step to the viewer: the events of a followed execution are sent over the wire,
 read back by a client, and printed.
 */
module Delivery {
  import opened Sequences
  import opened Lines
  import opened Redaction
  import opened MaskWriter
  import opened Outcome
  import opened Workspace
  import opened Events
  import opened Stream
  import opened Sse

  function StatusText(status: ExecStatus): string {
    match status
    case ExecPending => "pending"
    case ExecRunning => "running"
    case ExecSuccess => "success"
    case ExecFailed => "failed"
    case ExecCanceled => "canceled"
  }

  /** An event as it goes over the wire; `json` encodes a state. */
  function MessageOf(e: Event, json: ExecutionState -> string): Message {
    match e
    case LogEvent(source, line) => Message(source, line)
    case StateEvent(state) => Message("state", json(state))
    case DoneEvent(status) => Message("done", StatusText(status))
  }

  function Messages(events: seq<Event>, json: ExecutionState -> string): seq<Message> {
    seq(|events|, i requires 0 <= i < |events| => MessageOf(events[i], json))
  }

  class Sender {
    /** The bytes written to the response. */
    var out: string

    constructor ()
      ensures out == ""
    {
      out := "";
    }

    method Send(e: Event, json: ExecutionState -> string)
      modifies this
      ensures out == old(out) + Wire(MessageOf(e, json))
      ensures e.LogEvent? ==> out == old(out) + "event: " + e.source + "\ndata: " + e.line + "\n\n"
      ensures e.StateEvent? ==> out == old(out) + "event: state\ndata: " + json(e.state) + "\n\n"
      ensures e == DoneEvent(ExecSuccess) ==> out == old(out) + "event: done\ndata: success\n\n"
      ensures e == DoneEvent(ExecFailed) ==> out == old(out) + "event: done\ndata: failed\n\n"
      ensures e == DoneEvent(ExecCanceled) ==> out == old(out) + "event: done\ndata: canceled\n\n"
    {
      EventText(out, e, json);
      match e {
        case LogEvent(source, line) =>
          out := out + ("event: " + source + "\n" + ("data: " + line + "\n" + "\n"));
        case StateEvent(state) =>
          var data := json(state);
          out := out + ("event: state\n" + ("data: " + data + "\n" + "\n"));
          assert "event: " + "state" + "\n" == "event: state\n";
        case DoneEvent(status) =>
          out := out + ("event: done\n" + ("data: " + StatusText(status) + "\n" + "\n"));
          assert "event: " + "done" + "\n" == "event: done\n";
      }
    }
  }

  lemma EventText(out: string, e: Event, json: ExecutionState -> string)
    ensures var after := out + Wire(MessageOf(e, json));
            && (e.LogEvent? ==> after == out + "event: " + e.source + "\ndata: " + e.line + "\n\n")
            && (e.StateEvent? ==> after == out + "event: state\ndata: " + json(e.state) + "\n\n")
            && (e == DoneEvent(ExecSuccess) ==> after == out + "event: done\ndata: success\n\n")
            && (e == DoneEvent(ExecFailed) ==> after == out + "event: done\ndata: failed\n\n")
            && (e == DoneEvent(ExecCanceled) ==> after == out + "event: done\ndata: canceled\n\n")
  {
    hide Wire;
    var m := MessageOf(e, json);
    WireText(m.name, m.data);
    if e.LogEvent? {
      assert out + ("event: " + e.source + "\n" + "data: " + e.line + "\n\n") == out + "event: " + e.source + "\ndata: " + e.line + "\n\n";
    } else if e.StateEvent? {
      assert out + ("event: " + "state" + "\n" + "data: " + json(e.state) + "\n\n") == out + "event: state\ndata: " + json(e.state) + "\n\n";
    } else {
      DoneText(out, e.status);
    }
  }

  lemma DoneText(out: string, status: ExecStatus)
    ensures var text := out + ("event: " + "done" + "\n" + "data: " + StatusText(status) + "\n\n");
            && (status == ExecSuccess ==> text == out + "event: done\ndata: success\n\n")
            && (status == ExecFailed ==> text == out + "event: done\ndata: failed\n\n")
            && (status == ExecCanceled ==> text == out + "event: done\ndata: canceled\n\n")
  {
    assert "event: " + "done" + "\n" + "data: " == "event: done\ndata: ";
    assert "event: done\ndata: " + "success" + "\n\n" == "event: done\ndata: success\n\n";
    assert "event: done\ndata: " + "failed" + "\n\n" == "event: done\ndata: failed\n\n";
    assert "event: done\ndata: " + "canceled" + "\n\n" == "event: done\ndata: canceled\n\n";
  }

  method SendAll(events: seq<Event>, json: ExecutionState -> string) returns (body: string)
    ensures body == WireAll(Messages(events, json))
  {
    var s := new Sender();
    assert s.out + WireAll(Messages(events[0..], json)) == WireAll(Messages(events, json)) by {
      assert events[0..] == events;
    }
    for i := 0 to |events|
      invariant s.out + WireAll(Messages(events[i..], json)) == WireAll(Messages(events, json))
    {
      assert Messages(events[i..], json)[1..] == Messages(events[i + 1..], json);
      Assoc(s.out, Wire(MessageOf(events[i], json)), WireAll(Messages(events[i + 1..], json)));
      s.Send(events[i], json);
    }
    body := s.out;
  }

  /** The data a client received under a name, in order. */
  function DataFrom(ms: seq<Message>, name: string): seq<string> {
    if ms == [] then []
    else
      var m := ms[|ms| - 1];
      DataFrom(ms[..|ms| - 1], name) + if m.name == name then [m.data] else []
  }

  lemma {:induction false} DataIsLines(events: seq<Event>, json: ExecutionState -> string, source: string)
    requires source != "state" && source != "done"
    ensures DataFrom(Messages(events, json), source) == LinesFrom(events, source)
  {
    if events != [] {
      var init := events[..|events| - 1];
      DataIsLines(init, json, source);
      assert Messages(events, json)[..|events| - 1] == Messages(init, json);
    }
  }

  /** Lines as a reader has them: a carriage return at the end of one is dropped. */
  function WithoutReturns(texts: seq<string>): seq<string> {
    seq(|texts|, i requires 0 <= i < |texts| => DropReturn(texts[i]))
  }

  /** A carriage return at the end of a line goes, and nothing else. */
  lemma WithoutReturnsMeans(texts: seq<string>)
    ensures |WithoutReturns(texts)| == |texts|
    ensures forall i :: 0 <= i < |texts| ==>
      texts[i] == if EndsInReturn(texts[i]) then WithoutReturns(texts)[i] + "\r" else WithoutReturns(texts)[i]
    ensures WithoutReturns(texts) == texts <==> forall i :: 0 <= i < |texts| ==> !EndsInReturn(texts[i])
  {
    if forall i :: 0 <= i < |texts| ==> !EndsInReturn(texts[i]) {
      assert WithoutReturns(texts) == texts;
    }
    if i :| 0 <= i < |texts| && EndsInReturn(texts[i]) {
      assert |WithoutReturns(texts)[i]| < |texts[i]|;
    }
  }

  lemma {:induction false} DataAsRead(ms: seq<Message>, name: string)
    ensures DataFrom(AllAsRead(ms), name) == WithoutReturns(DataFrom(ms, name))
  {
    hide DropReturn;
    if ms != [] {
      var init := ms[..|ms| - 1];
      DataAsRead(init, name);
      assert AllAsRead(ms)[..|ms| - 1] == AllAsRead(init);
    }
  }

  /** Each line of an output redacted on its own. */
  function RedactTexts(texts: seq<string>, secrets: seq<string>): seq<string> {
    seq(|texts|, i requires 0 <= i < |texts| => Redact(texts[i], secrets))
  }

  lemma {:induction false} ReplaceNonempty(s: string, w: string)
    requires w != "" && s != ""
    ensures ReplaceAll(s, w) != ""
  {
  }

  lemma {:induction false} RedactNonempty(s: string, secrets: seq<string>)
    requires s != ""
    ensures Redact(s, secrets) != ""
    decreases |secrets|
  {
    if secrets != [] {
      if secrets[0] != "" {
        ReplaceNonempty(s, secrets[0]);
      }
      RedactNonempty(if secrets[0] == "" then s else ReplaceAll(s, secrets[0]), secrets[1..]);
    }
  }

  /** The lines of a masked file are the lines of the output, each redacted on its own. */
  lemma MaskedTexts(output: string, secrets: seq<string>)
    requires NewlineFree(secrets)
    ensures AllTexts(Masked(output, secrets)) == RedactTexts(AllTexts(output), secrets)
  {
    hide Redact, Complete, Rest, NewlineFree, Masked, LineTexts, RedactEach, Bodies;
    OutputLines(output, secrets);
    RedactEmpty(secrets);
    if Rest(output) != "" {
      RedactNonempty(Rest(output), secrets);
    }
    LinesRedacted(output, secrets);
  }

  lemma LinesRedacted(output: string, secrets: seq<string>)
    requires NewlineFree(secrets)
    ensures LineTexts(Masked(output, secrets)) == RedactTexts(LineTexts(output), secrets)
  {
    hide Redact, Complete, Rest, NewlineFree, Masked, LineTexts;
    var file := Masked(output, secrets);
    OutputLines(output, secrets);
    TextsOf(output);
    TextsOf(file);
    var ls := Complete(output);
    forall i | 0 <= i < |ls| ensures Bodies(Complete(file))[i] == Redact(Bodies(ls)[i], secrets) {
      assert IsLine(ls[i]);
      LineBody(ls[i], secrets);
    }
  }

  lemma LineBody(l: string, secrets: seq<string>)
    requires IsLine(l) && NewlineFree(secrets)
    ensures Redact(l, secrets) != ""
    ensures Redact(l, secrets)[..|Redact(l, secrets)| - 1] == Redact(l[..|l| - 1], secrets)
  {
    hide Redact;
    LineRedacted(l[..|l| - 1], secrets);
    assert l == l[..|l| - 1] + "\n";
  }

  /** The reader has the lines under that source and nothing else, and a clean end. */
  ghost predicate Arrived(r: Reading, source: string, lines: seq<string>) {
    r.clean && DataFrom(r.events, source) == lines
  }

  /**
   End to end. When the output of a step, in whatever chunks, is masked into a file that goes by its own
   source and is read to its end, by whatever polls, and every event of the stream is one the wire can
   carry, a client receives under that source exactly the redacted lines of the output, in order and
   once each, and then a clean end. Only a carriage return at the end of a line is dropped, so the lines are
   the same when no event has one there.
   */
  lemma EndToEnd(chunks: seq<string>, secrets: seq<string>, files: map<string, string>, tails: map<string, Tail>,
                 events: seq<Event>, path: string, json: ExecutionState -> string)
    requires NewlineFree(secrets)
    requires path in tails && path in files && files[path] == Masked(Concat(chunks), secrets)
    requires LogSource(path) != "state" && LogSource(path) != "done"
    requires tails[path].offset == |files[path]|
    requires LinesFrom(events, LogSource(path)) == AllTexts(Seen(files, tails, path))
    requires AllCarriable(events, json)
    ensures var r := ReadAll(WireAll(Messages(events, json)));
            var lines := RedactTexts(AllTexts(Concat(chunks)), secrets);
            && Arrived(r, LogSource(path), WithoutReturns(lines))
            && (AllSendable(events, json) ==> Arrived(r, LogSource(path), lines))
  {
    hide ReadAll, WireAll, AllTexts, Masked, Sendable, Carriable, LogSource, NewlineFree, LinesFrom, MessageOf, AllSendable;
    var ms := Messages(events, json);
    StreamRead(ms);
    DataAsRead(ms, LogSource(path));
    DataIsLines(events, json, LogSource(path));
    assert Seen(files, tails, path) == files[path];
    MaskedTexts(Concat(chunks), secrets);
    if AllSendable(events, json) {
      AllSent(events, json);
    }
  }

  lemma AllSent(events: seq<Event>, json: ExecutionState -> string)
    requires AllSendable(events, json)
    ensures ReadAll(WireAll(Messages(events, json))) == Reading(Messages(events, json), true)
  {
    hide ReadAll, WireAll, Sendable, MessageOf;
    StreamRoundTrip(Messages(events, json));
  }

  /** Some look of a sweep found the file of `size` bytes at its full length. */
  ghost predicate SawAll(looks: seq<(string, Look)>, path: string, size: nat) {
    exists k :: 0 <= k < |looks| && looks[k].0 == path && looks[k].1.Readable? && looks[k].1.size == size
  }

  ghost predicate AllSendable(events: seq<Event>, json: ExecutionState -> string) {
    forall i :: 0 <= i < |events| ==> Sendable(MessageOf(events[i], json))
  }

  ghost predicate AllCarriable(events: seq<Event>, json: ExecutionState -> string) {
    forall i :: 0 <= i < |events| ==> Carriable(MessageOf(events[i], json))
  }

  /** Newline-free secrets, a source of the file's own that is not reserved, and events the wire can carry. */
  ghost predicate Deliverable(f: Follower, secrets: seq<string>, path: string, json: ExecutionState -> string)
    reads f
  {
    && NewlineFree(secrets) && LogSource(path) != "state" && LogSource(path) != "done"
    && Alone(f.tails, path) && AllCarriable(f.events, json)
  }

  /** The event a client ends on, by the status of the execution. */
  function EndOf(status: ExecStatus): (m: Message)
    ensures status == ExecSuccess ==> m == Message("done", "success")
    ensures status == ExecFailed ==> m == Message("done", "failed")
    ensures status == ExecCanceled ==> m == Message("done", "canceled")
  {
    Message("done", StatusText(status))
  }

  lemma DeliverableParts(f: Follower, secrets: seq<string>, path: string, json: ExecutionState -> string)
    requires Deliverable(f, secrets, path, json)
    ensures AllCarriable(f.events, json)
  {
  }

  lemma EndReceived(events: seq<Event>, status: ExecStatus, json: ExecutionState -> string)
    requires events != [] && events[|events| - 1] == DoneEvent(status) && AllCarriable(events, json)
    ensures var r := ReadAll(WireAll(Messages(events, json)));
            r.events != [] && r.events[|r.events| - 1] == EndOf(status)
  {
    hide ReadAll, WireAll, Carriable;
    var ms := Messages(events, json);
    forall i | 0 <= i < |ms| ensures Carriable(ms[i]) {
      assert ms[i] == MessageOf(events[i], json);
    }
    StreamRead(ms);
    assert ms[|ms| - 1] == EndOf(status);
  }

  /** A file whose full length has been seen, and read up to at least that, has been read to its end. */
  lemma ReadToEnd(f: Follower, looks: seq<(string, Look)>, path: string)
    requires TailsOk(f.files, f.tails) && f.AllCaughtUp(looks) && path in f.files && SawAll(looks, path, |f.files[path]|)
    ensures path in f.tails && f.tails[path].offset == |f.files[path]|
  {
    hide Rest;
    var k :| 0 <= k < |looks| && looks[k].0 == path && looks[k].1.Readable? && looks[k].1.size == |f.files[path]|;
    assert f.CaughtUp(looks[k].0, looks[k].1);
    assert TailOk(f.files, f.tails, path);
  }

  /**
   The whole pipeline, from the chunks of a step's output to what a client receives. The output is masked
   into the file at `path`, the files are followed through the polls, the events are sent, and the body is
   read back. When the execution is followed to its end, the final sweep finds the step's file complete, no
   other file goes by its source, which is not a reserved one, and the wire can carry the events, the client
   receives exactly the redacted lines of the output under that source, and a clean end. These conditions
   are met whenever the secrets, the names of the steps, the files and the encoded states are `WellFormed`.
   All that is ever dropped is a carriage return at the end of a line.
   */
  method FollowStep(chunks: seq<string>, secrets: seq<string>, dir: string, names: seq<string>, k: nat,
                    others: map<string, string>, polls: seq<Poll>, json: ExecutionState -> string)
    returns (finished: bool, turns: nat, f: Follower, received: Reading)
    requires k < |names|
    requires PollsOk(others[StepLog(dir, k, names[k]) := Masked(Concat(chunks), secrets)], polls)
    ensures turns <= |polls| && (finished ==> turns > 0 && Terminal(polls[turns - 1].execution.status))
    ensures var path := StepLog(dir, k, names[k]);
            var lines := RedactTexts(AllTexts(Concat(chunks)), secrets);
            finished && SawAll(polls[turns - 1].again, path, |Masked(Concat(chunks), secrets)|) && Deliverable(f, secrets, path, json) ==>
              && Arrived(received, Source(names[k]), WithoutReturns(lines))
              && (AllSendable(f.events, json) ==> Arrived(received, Source(names[k]), lines))
    ensures var path := StepLog(dir, k, names[k]);
            var file := Masked(Concat(chunks), secrets);
            var lines := RedactTexts(AllTexts(Concat(chunks)), secrets);
            finished && SawAll(polls[turns - 1].again, path, |file|) && WellFormed(secrets, dir, names, k, others[path := file], polls, json) ==>
              && Arrived(received, Source(names[k]), WithoutReturns(lines))
              && (Arrived(received, Source(names[k]), lines) <==> forall i :: 0 <= i < |lines| ==> lines[i] == "" || lines[i][|lines[i]| - 1] != '\r')
              && received.events != [] && received.events[|received.events| - 1] == EndOf(polls[turns - 1].execution.status)
  {
    hide Masked, Sendable, ReadAll, WireAll, LogSource, StepLog, Source, NewlineFree, LinesFrom, AllTexts, Alone, Terminal, StatesOf, Changes, SawAll, AllSendable, AllCarriable, Deliverable, WellFormed;
    ghost var lines := RedactTexts(AllTexts(Concat(chunks)), secrets);
    var path := StepLog(dir, k, names[k]);
    SourceRoundTrip(dir, k, names[k]);
    var file := MaskOutput(chunks, secrets);
    var files := others[path := file];
    f := new Follower(files);
    finished, turns := StreamLogs(f, polls);
    var body := SendAll(f.events, json);
    received := ReadEvents(body);
    if finished && SawAll(polls[turns - 1].again, path, |file|) {
      ReadToEnd(f, polls[turns - 1].again, path);
      Received(chunks, secrets, f, path, json);
      if WellFormed(secrets, dir, names, k, files, polls, json) {
        WellFormedDelivers(secrets, dir, names, k, polls, turns, f, json);
        WithoutReturnsMeans(lines);
        DeliverableParts(f, secrets, path, json);
        EndReceived(f.events, polls[turns - 1].execution.status, json);
      }
    }
  }

  lemma Received(chunks: seq<string>, secrets: seq<string>, f: Follower, path: string, json: ExecutionState -> string)
    requires path in f.tails && path in f.files && f.files[path] == Masked(Concat(chunks), secrets)
    requires f.tails[path].offset == |f.files[path]|
    requires Alone(f.tails, path) ==> LinesFrom(f.events, LogSource(path)) == AllTexts(Seen(f.files, f.tails, path))
    ensures Deliverable(f, secrets, path, json) ==>
        var r := ReadAll(WireAll(Messages(f.events, json)));
        var lines := RedactTexts(AllTexts(Concat(chunks)), secrets);
        && Arrived(r, LogSource(path), WithoutReturns(lines))
        && (AllSendable(f.events, json) ==> Arrived(r, LogSource(path), lines))
  {
    hide Masked, Sendable, AllCarriable, AllSendable, ReadAll, WireAll, LogSource, NewlineFree, LinesFrom, AllTexts, Alone, Arrived;
    if Deliverable(f, secrets, path, json) {
      EndToEnd(chunks, secrets, f.files, f.tails, f.events, path, json);
    }
  }

  // ---------------------------------------------------------------- what a caller can check

  /** Every line of a file fits the scanner, wherever reading stops. */
  ghost predicate Fits(file: string) {
    forall i: nat, j: nat :: i <= j <= |file| && '\n' !in file[i..j] ==> j - i + 6 < MAX_TOKEN
  }

  /** A path is the setup log, or the log of one of the steps. */
  ghost predicate IsLog(dir: string, names: seq<string>, path: string) {
    path == SetupLog(dir) || exists i :: 0 <= i < |names| && path == StepLog(dir, i, names[i])
  }

  /** The files are the setup log and the logs of steps, in lines that fit; the steps have names, which fit. */
  ghost predicate FilesFit(dir: string, names: seq<string>, files: map<string, string>) {
    && (forall p :: p in files ==> IsLog(dir, names, p) && Fits(files[p]))
    && (forall i :: 0 <= i < |names| ==> 0 < |names[i]| && |names[i]| + 7 < MAX_TOKEN)
  }

  /** No other step, nor the setup, nor the wire itself uses the step's source. */
  ghost predicate OwnSource(names: seq<string>, k: nat)
    requires k < |names|
  {
    && Source(names[k]) != "setup" && Source(names[k]) != "state" && Source(names[k]) != "done"
    && forall i :: 0 <= i < |names| && i != k ==> Source(names[i]) != Source(names[k])
  }

  ghost predicate StatesFit(polls: seq<Poll>, json: ExecutionState -> string) {
    forall i :: 0 <= i < |polls| ==> Carriable(Message("state", json(View(polls[i].execution))))
  }

  ghost predicate WellFormed(secrets: seq<string>, dir: string, names: seq<string>, k: nat, files: map<string, string>,
                             polls: seq<Poll>, json: ExecutionState -> string)
    requires k < |names|
  {
    NewlineFree(secrets) && OwnSource(names, k) && FilesFit(dir, names, files) && StatesFit(polls, json)
  }

  lemma WellFormedDelivers(secrets: seq<string>, dir: string, names: seq<string>, k: nat, polls: seq<Poll>, turns: nat,
                           f: Follower, json: ExecutionState -> string)
    requires k < |names| && WellFormed(secrets, dir, names, k, f.files, polls, json)
    requires TailsOk(f.files, f.tails) && Quoted(f.files, f.events)
    requires turns <= |polls| && StatesOf(f.events) == Changes(Views(polls, turns))
    ensures Deliverable(f, secrets, StepLog(dir, k, names[k]), json)
  {
    hide Carriable, Fits, LogSource, StepLog, SetupLog, Source, NewlineFree, StatesOf, Changes, StatesFit, Quoted, Alone, AllCarriable, IsLog;
    assert forall p :: p in f.tails ==> IsLog(dir, names, p) by {
      TailsAreFiles(f.files, f.tails);
    }
    AloneAmong(dir, names, f.tails, k);
    SourceRoundTrip(dir, k, names[k]);
    EventsCarriable(dir, names, f.files, polls, turns, f.events, json);
  }

  lemma TailsAreFiles(files: map<string, string>, tails: map<string, Tail>)
    requires TailsOk(files, tails)
    ensures forall p :: p in tails ==> p in files
  {
    forall p | p in tails ensures p in files {
      assert TailOk(files, tails, p);
    }
  }

  lemma EventsCarriable(dir: string, names: seq<string>, files: map<string, string>, polls: seq<Poll>, turns: nat,
                       events: seq<Event>, json: ExecutionState -> string)
    requires FilesFit(dir, names, files) && StatesFit(polls, json) && Quoted(files, events)
    requires turns <= |polls| && StatesOf(events) == Changes(Views(polls, turns))
    ensures AllCarriable(events, json)
  {
    hide Carriable, FilesFit, StatesOf, Changes, Quotes, StatesFit;
    forall i | 0 <= i < |events| ensures Carriable(MessageOf(events[i], json)) {
      assert Quotes(files, events[i]);
      match events[i]
      case LogEvent(_, _) => LogCarriable(dir, names, files, events[i], json);
      case StateEvent(state) =>
        StateReported(events, i);
        StateCarriable(polls, turns, state, json);
      case DoneEvent(status) => DoneCarriable(status);
    }
  }

  lemma LogCarriable(dir: string, names: seq<string>, files: map<string, string>, e: Event, json: ExecutionState -> string)
    requires FilesFit(dir, names, files) && e.LogEvent? && Quotes(files, e)
    ensures Carriable(MessageOf(e, json))
  {
    hide Carriable, Fits, Stretch, LogSource, IsLog;
    var p :| p in files && e.source == LogSource(p) && Stretch(e.line, files[p]);
    LogNamed(dir, names, p);
    LineCarriable(e.source, e.line, files[p]);
  }

  /** A name made of filesystem-safe characters that the wire can carry. */
  ghost predicate GoodName(source: string) {
    source != "" && |source| + 7 < MAX_TOKEN && forall i :: 0 <= i < |source| ==> FileSafe(source[i])
  }

  lemma LogNamed(dir: string, names: seq<string>, p: string)
    requires IsLog(dir, names, p) && forall i :: 0 <= i < |names| ==> 0 < |names[i]| && |names[i]| + 7 < MAX_TOKEN
    ensures GoodName(LogSource(p))
  {
    hide LogSource, StepLog, SetupLog;
    if p == SetupLog(dir) {
      SetupSource(dir);
    } else {
      var i :| 0 <= i < |names| && p == StepLog(dir, i, names[i]);
      SourceRoundTrip(dir, i, names[i]);
    }
  }

  lemma LineCarriable(source: string, line: string, file: string)
    requires GoodName(source) && Fits(file) && Stretch(line, file)
    ensures Carriable(Message(source, line))
  {
    var i: nat, j: nat :| i <= j <= |file| && line == file[i..j];
  }

  lemma StateCarriable(polls: seq<Poll>, turns: nat, state: ExecutionState, json: ExecutionState -> string)
    requires turns <= |polls| && StatesFit(polls, json) && state in Changes(Views(polls, turns))
    ensures Carriable(Message("state", json(state)))
  {
    hide Carriable, Changes, View;
    ChangesSeen(Views(polls, turns));
  }

  lemma DoneCarriable(status: ExecStatus)
    ensures Carriable(Message("done", StatusText(status)))
  {
  }

  /** Among logs, a step with a source of its own is alone. */
  lemma AloneAmong(dir: string, names: seq<string>, tails: map<string, Tail>, k: nat)
    requires k < |names| && OwnSource(names, k) && forall p :: p in tails ==> IsLog(dir, names, p)
    ensures Alone(tails, StepLog(dir, k, names[k]))
  {
    hide LogSource, StepLog, SetupLog, Source;
    var path := StepLog(dir, k, names[k]);
    SourceRoundTrip(dir, k, names[k]);
    forall q | q in tails && q != path ensures LogSource(q) != LogSource(path) {
      assert IsLog(dir, names, q);
      if q == SetupLog(dir) {
        SetupSource(dir);
      } else {
        var i :| 0 <= i < |names| && q == StepLog(dir, i, names[i]);
        SourceRoundTrip(dir, i, names[i]);
      }
    }
  }

  // ---------------------------------------------------------------- who is alone

  ghost predicate AreLogs(dir: string, names: seq<string>, tails: map<string, Tail>) {
    && SetupLog(dir) in tails
    && (forall i :: 0 <= i < |names| ==> StepLog(dir, i, names[i]) in tails)
    && (forall p :: p in tails ==> p == SetupLog(dir) || exists i :: 0 <= i < |names| && p == StepLog(dir, i, names[i]))
  }

  /** The log of a step is alone under its source exactly when no other step, nor the setup, shares the source. */
  lemma AloneIff(dir: string, names: seq<string>, tails: map<string, Tail>, k: nat)
    requires AreLogs(dir, names, tails) && k < |names|
    ensures Alone(tails, StepLog(dir, k, names[k])) <==>
      Source(names[k]) != "setup" && forall i :: 0 <= i < |names| && i != k ==> Source(names[i]) != Source(names[k])
  {
    hide LogSource, StepLog, SetupLog, Source;
    var path := StepLog(dir, k, names[k]);
    SetupSource(dir);
    SourceRoundTrip(dir, k, names[k]);
    SetupApart(dir, k, names[k]);
    forall i | 0 <= i < |names| ensures LogSource(StepLog(dir, i, names[i])) == Source(names[i]) {
      SourceRoundTrip(dir, i, names[i]);
    }
    forall i | 0 <= i < |names| && i != k ensures StepLog(dir, i, names[i]) != path {
      StepLogApart(dir, i, names[i], k, names[k]);
    }
    if Alone(tails, path) {
      assert forall i :: 0 <= i < |names| && i != k ==> LogSource(StepLog(dir, i, names[i])) != LogSource(path);
    }
  }

  lemma SetupApart(dir: string, k: nat, step: string)
    ensures StepLog(dir, k, step) != SetupLog(dir)
  {
    hide Padded, Source;
    assert StepLog(dir, k, step)[|dir| + 2] == 't' && SetupLog(dir)[|dir| + 2] == 'e';
  }

  lemma StepLogApart(dir: string, i: nat, s: string, j: nat, t: string)
    requires i != j
    ensures StepLog(dir, i, s) != StepLog(dir, j, t)
  {
    hide Padded, Source;
    StepFileInjective(i, s, j, t);
    var n := |dir + "/steps/"|;
    assert StepLog(dir, i, s)[n..] == StepFile(i, s) && StepLog(dir, j, t)[n..] == StepFile(j, t);
  }

  // ---------------------------------------------------------------- what the command line prints

  /** The data printed while following: states are not shown, and the first end stops the printing. */
  function Printed(ms: seq<Message>): seq<string> {
    if ms == [] || ms[0].name == "done" then []
    else (if ms[0].name == "state" then [] else [ms[0].data]) + Printed(ms[1..])
  }

  method FollowLogs(body: string) returns (printed: seq<string>)
    ensures printed == Printed(ReadAll(body).events)
  {
    var s := new EventStream(body);
    printed := [];
    while true
      invariant !s.broken
      invariant printed + Printed(ReadAll(s.input).events) == Printed(ReadAll(body).events)
      decreases |s.input|
    {
      var ev, got := s.Next();
      if !got {
        assert printed + [] == printed;
        return;
      }
      if ev.name == "done" {
        assert printed + [] == printed;
        return;
      }
      var more := Printed(ReadAll(s.input).events);
      if ev.name != "state" {
        Assoc(printed, [ev.data], more);
        printed := printed + [ev.data];
      } else {
        assert [] + more == more;
      }
    }
  }

  /** The log lines among the events, whatever their source. */
  function AllLines(events: seq<Event>): seq<string> {
    if events == [] then []
    else (if events[0].LogEvent? then [events[0].line] else []) + AllLines(events[1..])
  }

  ghost predicate PlainSources(events: seq<Event>) {
    forall i :: 0 <= i < |events| && events[i].LogEvent? ==> events[i].source != "state" && events[i].source != "done"
  }

  lemma {:induction false} PrintedAtMost(events: seq<Event>, json: ExecutionState -> string)
    ensures |Printed(Messages(events, json))| <= |AllLines(events)|
  {
    if events != [] {
      assert Messages(events, json)[1..] == Messages(events[1..], json);
      PrintedAtMost(events[1..], json);
    }
  }

  lemma PlainFirst(events: seq<Event>)
    requires events != []
    ensures var e := events[0];
            PlainSources(events) <==> (e.LogEvent? ==> e.source != "state" && e.source != "done") && PlainSources(events[1..])
  {
    assert forall i :: 0 < i < |events| ==> events[i] == events[1..][i - 1];
    assert forall i :: 0 <= i < |events[1..]| ==> events[1..][i] == events[i + 1];
  }

  /** Every log line is printed, in order, exactly when no file goes by the name of a state or of the end. */
  lemma {:induction false} PrintedIff(events: seq<Event>, json: ExecutionState -> string)
    requires Undone(events)
    ensures Printed(Messages(events, json)) == AllLines(events) <==> PlainSources(events)
  {
    if events != [] {
      var ms := Messages(events, json);
      var e := events[0];
      assert ms[1..] == Messages(events[1..], json);
      PrintedIff(events[1..], json);
      PrintedAtMost(events[1..], json);
      PlainFirst(events);
      hide PlainSources, StatusText;
      assert [] + Printed(ms[1..]) == Printed(ms[1..]) && [] + AllLines(events[1..]) == AllLines(events[1..]);
      if e.LogEvent? && e.source != "state" && e.source != "done" {
        assert Printed(ms) == [e.line] + Printed(ms[1..]);
        assert Printed(ms)[1..] == Printed(ms[1..]) && AllLines(events)[1..] == AllLines(events[1..]);
      }
    }
  }
}
