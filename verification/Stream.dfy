/**
 Following the logs of an execution. A poller sweeps over the log files, which only grow, and reports
 each line once it is complete; it reports the state of the execution whenever it changes; once the
 execution is terminal it sweeps once more, reports the unterminated last lines, and the end.
 */
module Stream {
  import opened Sequences
  import opened Lines
  import opened Steps
  import opened Outcome
  import opened Workspace
  import opened Events

  /** How far the lines of a file have been reported, and the start of the next one. */
  datatype Tail = Tail(offset: nat, partial: string)

  /**
   What a sweep finds at a path: nothing it can read, or a file that was `size` bytes long when its
   size was asked and `length` bytes long when it was read.
   */
  datatype Look = Unreadable | Readable(size: nat, length: nat)

  /** `files` gives each path the content its file ends up with: a file that grows shows a prefix of it. */
  ghost predicate LookOk(files: map<string, string>, path: string, look: Look) {
    path in files && (look.Readable? ==> look.size <= look.length <= |files[path]|)
  }

  ghost predicate LooksOk(files: map<string, string>, looks: seq<(string, Look)>) {
    forall i :: 0 <= i < |looks| ==> LookOk(files, looks[i].0, looks[i].1)
  }

  function Advance(offset: nat, look: Look): nat {
    if look.Unreadable? || look.size <= offset then offset else look.length
  }

  /** No other file listed so far goes by the same source. */
  ghost predicate Alone(tails: map<string, Tail>, p: string) {
    forall q :: q in tails && q != p ==> LogSource(q) != LogSource(p)
  }

  ghost predicate Unused(tails: map<string, Tail>, source: string) {
    forall q :: q in tails ==> LogSource(q) != source
  }

  ghost predicate TailOk(files: map<string, string>, tails: map<string, Tail>, p: string)
    requires p in tails
  {
    && p in files && tails[p].offset <= |files[p]|
    && tails[p].partial == Rest(files[p][..tails[p].offset])
  }

  ghost predicate TailsOk(files: map<string, string>, tails: map<string, Tail>) {
    forall p :: p in tails ==> TailOk(files, tails, p)
  }

  /** The part of `p` read so far. */
  ghost function Seen(files: map<string, string>, tails: map<string, Tail>, p: string): string {
    if p in tails && p in files && tails[p].offset <= |files[p]| then files[p][..tails[p].offset] else ""
  }

  /** The lines reported for a file that is alone are the complete lines of the part read so far. */
  ghost predicate Faithful(files: map<string, string>, tails: map<string, Tail>, events: seq<Event>) {
    forall p :: p in tails && Alone(tails, p) ==> LinesFrom(events, LogSource(p)) == LineTexts(Seen(files, tails, p))
  }

  /** Nothing is reported for a source no file goes by. */
  ghost predicate Silent(tails: map<string, Tail>, events: seq<Event>) {
    forall source :: Unused(tails, source) ==> LinesFrom(events, source) == []
  }

  ghost predicate Sound(files: map<string, string>, tails: map<string, Tail>, events: seq<Event>) {
    TailsOk(files, tails) && Faithful(files, tails, events) && Silent(tails, events) && Undone(events)
  }

  /** `after` reports `more` for `source` on top of `events`, and nothing else but log lines. */
  ghost predicate Gained(events: seq<Event>, after: seq<Event>, source: string, more: seq<string>) {
    && LinesFrom(after, source) == LinesFrom(events, source) + more
    && (forall other :: other != source ==> LinesFrom(after, other) == LinesFrom(events, other))
    && StatesOf(after) == StatesOf(events)
    && (Undone(events) ==> Undone(after))
  }

  lemma GainedOne(events: seq<Event>, source: string, line: string)
    ensures Gained(events, events + [LogEvent(source, line)], source, [line])
  {
    hide LinesFrom, StatesOf;
    forall s {
      LinesFromOne(events, LogEvent(source, line), s);
    }
  }

  lemma GainedMore(a: seq<Event>, b: seq<Event>, c: seq<Event>, source: string, x: seq<string>, y: seq<string>)
    requires Gained(a, b, source, x) && Gained(b, c, source, y)
    ensures Gained(a, c, source, x + y)
  {
    hide LinesFrom, StatesOf, Undone;
    Assoc(LinesFrom(a, source), x, y);
  }

  lemma NothingRead()
    ensures Rest("") == "" && LineTexts("") == []
  {
    TextsCut("");
  }

  lemma OpenApart(tails: map<string, Tail>, path: string, p: string)
    requires path !in tails
    ensures Alone(tails[path := Tail(0, "")], p) && p in tails ==> Alone(tails, p)
    ensures Alone(tails[path := Tail(0, "")], path) ==> Unused(tails, LogSource(path))
  {
    hide LogSource;
  }

  lemma OpenUnused(tails: map<string, Tail>, path: string, source: string)
    ensures Unused(tails[path := Tail(0, "")], source) ==> Unused(tails, source)
  {
    hide LogSource;
  }

  /** Listing a file for the first time. */
  lemma OpenSound(files: map<string, string>, tails: map<string, Tail>, events: seq<Event>, path: string)
    requires Sound(files, tails, events) && path in files && path !in tails
    ensures Sound(files, tails[path := Tail(0, "")], events)
  {
    hide Rest, LineTexts, LinesFrom, LogSource, Alone, Unused, Undone;
    var tails' := tails[path := Tail(0, "")];
    NothingRead();
    assert files[path][..0] == "";
    forall p | p in tails' ensures TailOk(files, tails', p) {
      assert p != path ==> TailOk(files, tails, p);
    }
    forall p | p in tails' && Alone(tails', p) ensures LinesFrom(events, LogSource(p)) == LineTexts(Seen(files, tails', p)) {
      OpenApart(tails, path, p);
      assert p != path ==> Seen(files, tails', p) == Seen(files, tails, p);
    }
    forall source | Unused(tails', source) ensures LinesFrom(events, source) == [] {
      OpenUnused(tails, path, source);
    }
  }

  /** Reading on splits into the lines already known and the lines completed by the new data. */
  lemma ReadOn(file: string, from: nat, to: nat)
    requires from <= to <= |file|
    ensures var text := Rest(file[..from]) + file[from..to];
            LineTexts(file[..to]) == LineTexts(file[..from]) + LineTexts(text) && Rest(file[..to]) == Rest(text)
  {
    hide Rest, LineTexts;
    TextsAppend(file[..from], file[from..to]);
    assert file[..from] + file[from..to] == file[..to];
  }

  /** Reading what a listed file has gained. */
  lemma ReadSound(files: map<string, string>, tails: map<string, Tail>, events: seq<Event>, after: seq<Event>, path: string, to: nat)
    requires Sound(files, tails, events) && path in tails && path in files && tails[path].offset <= to <= |files[path]|
    requires Gained(events, after, LogSource(path), LineTexts(tails[path].partial + files[path][tails[path].offset..to]))
    ensures Sound(files, tails[path := Tail(to, Rest(tails[path].partial + files[path][tails[path].offset..to]))], after)
  {
    hide Rest, LineTexts, LinesFrom, LogSource, Undone, Alone;
    var tails' := tails[path := Tail(to, Rest(tails[path].partial + files[path][tails[path].offset..to]))];
    assert TailOk(files, tails, path);
    ReadOn(files[path], tails[path].offset, to);
    forall p | p in tails' ensures TailOk(files, tails', p) {
      assert p != path ==> TailOk(files, tails, p);
    }
    forall p | p in tails' && Alone(tails', p) ensures LinesFrom(after, LogSource(p)) == LineTexts(Seen(files, tails', p)) {
      SameAlone(tails, tails', p);
      if p != path {
        AloneApart(tails, p, path);
        assert Seen(files, tails', p) == Seen(files, tails, p);
      }
    }
    forall source | Unused(tails', source) ensures LinesFrom(after, source) == [] {
      assert path in tails' && source != LogSource(path);
      assert Unused(tails, source);
    }
  }

  lemma SameAlone(tails: map<string, Tail>, tails': map<string, Tail>, p: string)
    requires tails.Keys == tails'.Keys
    ensures Alone(tails, p) <==> Alone(tails', p)
  {
  }

  lemma AloneApart(tails: map<string, Tail>, p: string, q: string)
    requires Alone(tails, p) && q in tails && q != p
    ensures LogSource(p) != LogSource(q)
  {
  }

  // ---------------------------------------------------------------- what a reported line is a part of

  /** A part of a text without a newline. */
  ghost predicate Stretch(line: string, text: string) {
    '\n' !in line && exists i: nat, j: nat :: i <= j <= |text| && line == text[i..j]
  }

  /** A line reported is a stretch of a file that goes by its source. */
  ghost predicate Quotes(files: map<string, string>, e: Event) {
    e.LogEvent? ==> exists p :: p in files && e.source == LogSource(p) && Stretch(e.line, files[p])
  }

  ghost predicate Quoted(files: map<string, string>, events: seq<Event>) {
    forall i :: 0 <= i < |events| ==> Quotes(files, events[i])
  }

  /** `after` adds to `events` stretches of `text`, reported for `source`. */
  ghost predicate Cites(events: seq<Event>, after: seq<Event>, source: string, text: string) {
    && |events| <= |after| && after[..|events|] == events
    && forall i :: |events| <= i < |after| ==> after[i].LogEvent? && after[i].source == source && Stretch(after[i].line, text)
  }

  lemma CitesOne(events: seq<Event>, after: seq<Event>, source: string, text: string, line: string)
    requires Cites(events, after, source, text) && Stretch(line, text)
    ensures Cites(events, after + [LogEvent(source, line)], source, text)
  {
    hide Stretch;
  }

  /** What comes before the first newline of the end of a text, and what comes after it. */
  lemma StretchHead(text: string, k: nat, idx: nat)
    requires k <= |text| && idx < |text| - k && '\n' !in text[k..][..idx]
    ensures Stretch(text[k..][..idx], text)
    ensures text[k..][idx + 1..] == text[k + idx + 1..]
  {
    assert text[k..][..idx] == text[k..k + idx];
  }

  lemma QuotedMore(files: map<string, string>, events: seq<Event>, e: Event)
    requires Quoted(files, events) && Quotes(files, e)
    ensures Quoted(files, events + [e])
  {
    hide Quotes;
  }

  lemma QuotedCites(files: map<string, string>, events: seq<Event>, after: seq<Event>, path: string, text: string, i: nat, j: nat)
    requires Quoted(files, events) && Cites(events, after, LogSource(path), text)
    requires path in files && i <= j <= |files[path]| && text == files[path][i..j]
    ensures Quoted(files, after)
  {
    hide LogSource, Stretch;
    forall k | 0 <= k < |after| ensures Quotes(files, after[k]) {
      if k < |events| {
        assert after[k] == after[..|events|][k];
        assert Quotes(files, events[k]);
      } else {
        StretchWithin(after[k].line, text, files[path], i, j);
      }
    }
  }

  lemma StretchWithin(line: string, text: string, file: string, i: nat, j: nat)
    requires Stretch(line, text) && i <= j <= |file| && text == file[i..j]
    ensures Stretch(line, file)
  {
    var a: nat, b: nat :| a <= b <= |text| && line == text[a..b];
    SliceOfSlice(file, i, j, a, b);
  }

  lemma SliceOfSlice(s: string, i: nat, j: nat, a: nat, b: nat)
    requires i <= j <= |s| && a <= b <= j - i
    ensures s[i..j][a..b] == s[i + a..i + b]
  {
    var x, y := s[i..j][a..b], s[i + a..i + b];
    assert |x| == |y|;
    assert forall m :: 0 <= m < |x| ==> x[m] == s[i + a + m] && y[m] == s[i + a + m];
    assert x == y;
  }

  lemma {:induction false} RestEnds(s: string)
    ensures Rest(s) == s[|s| - |Rest(s)|..]
    decreases |s|
  {
    hide Break, Rest;
    TextsCut(s);
    if Break(s) < |s| {
      RestEnds(s[Break(s) + 1..]);
    }
  }

  /** The partial line and the data read next are one part of the file. */
  lemma PartialAndData(file: string, offset: nat, to: nat)
    requires offset <= to <= |file|
    ensures var k := offset - |Rest(file[..offset])|; k >= 0 && Rest(file[..offset]) + file[offset..to] == file[k..to]
  {
    hide Rest;
    RestEnds(file[..offset]);
  }

  lemma PartialQuoted(files: map<string, string>, tails: map<string, Tail>, path: string)
    requires TailsOk(files, tails) && path in tails
    ensures Quotes(files, LogEvent(LogSource(path), tails[path].partial))
  {
    hide Rest, LogSource;
    assert TailOk(files, tails, path);
    var offset := tails[path].offset;
    PartialAndData(files[path], offset, offset);
    assert tails[path].partial == files[path][offset - |tails[path].partial|..offset];
  }

  lemma AdvanceGrows(files: map<string, string>, path: string, look: Look, offset: nat)
    requires LookOk(files, path, look)
    ensures offset <= Advance(offset, look) && (look.Readable? ==> look.size <= Advance(offset, look))
  {
  }

  class Follower {
    const files: map<string, string>
    var tails: map<string, Tail>
    var events: seq<Event>

    ghost predicate Valid()
      reads this
    {
      Sound(files, tails, events) && Quoted(files, events)
    }

    constructor (files: map<string, string>)
      ensures this.files == files && tails == map[] && events == [] && Valid()
    {
      this.files := files;
      tails := map[];
      events := [];
    }

    method Emit(e: Event)
      modifies this`events
      ensures events == old(events) + [e]
    {
      events := events + [e];
    }

    /** Reports the complete lines of a text, and hands back the rest. */
    method EmitLines(source: string, text: string) returns (partial: string)
      modifies this`events
      ensures partial == Rest(text)
      ensures Gained(old(events), events, source, LineTexts(text)) && Cites(old(events), events, source, text)
    {
      hide Break, Rest, LineTexts, LinesFrom, StatesOf, Gained, Stretch;
      partial := text;
      ghost var given: seq<string> := [];
      NothingGained(events, source);
      while true
        invariant Rest(partial) == Rest(text)
        invariant |partial| <= |text| && partial == text[|text| - |partial|..]
        invariant Gained(old(events), events, source, given) && Cites(old(events), events, source, text)
        invariant given + LineTexts(partial) == LineTexts(text)
        decreases |partial|
      {
        var idx := Break(partial);
        TextsCut(partial);
        if idx == |partial| {
          assert given + [] == given;
          break;
        }
        var line := partial[..idx];
        StretchHead(text, |text| - |partial|, idx);
        CitesOne(old(events), events, source, text, line);
        GainedOne(events, source, line);
        GainedMore(old(events), events, events + [LogEvent(source, line)], source, given, [line]);
        Assoc(given, [line], LineTexts(partial[idx + 1..]));
        given := given + [line];
        Emit(LogEvent(source, line));
        partial := partial[idx + 1..];
      }
    }

    /** One file of a sweep: read it when its size says that it has grown, and report the lines completed. */
    method Visit(path: string, look: Look)
      requires Valid() && LookOk(files, path, look)
      modifies this
      ensures Valid() && StatesOf(events) == old(StatesOf(events))
      ensures tails.Keys == old(tails).Keys + {path}
      ensures forall q :: q in old(tails) && q != path ==> tails[q] == old(tails)[q]
      ensures tails[path].offset == Advance(if path in old(tails) then old(tails)[path].offset else 0, look)
      ensures var from := if path in old(tails) then old(tails)[path].offset else 0;
        tails[path].offset == (if look.Readable? && from < look.size then look.length else from)
    {
      hide Rest, LineTexts, LinesFrom, StatesOf, LogSource, Sound, Gained, Quoted, Cites;
      if path !in tails {
        OpenSound(files, tails, events, path);
        tails := tails[path := Tail(0, "")];
      }
      var tail := tails[path];
      if look.Unreadable? || look.size <= tail.offset {
        return;
      }
      OffsetBounded(files, tails, events, path);
      var data := files[path][tail.offset..look.length];
      label Before:
      var partial := EmitLines(LogSource(path), tail.partial + data);
      ReadSound(files, tails, old@Before(events), events, path, look.length);
      GainedStates(old@Before(events), events, LogSource(path), LineTexts(tail.partial + data));
      PartialAndData(files[path], tail.offset, look.length);
      QuotedCites(files, old@Before(events), events, path, tail.partial + data, tail.offset - |tail.partial|, look.length);
      tails := tails[path := Tail(tail.offset + |data|, partial)];
    }

    /** `p` has been read at least up to the size it had when it was looked at. */
    ghost predicate CaughtUp(p: string, look: Look)
      reads this
    {
      p in tails && (look.Readable? ==> look.size <= tails[p].offset)
    }

    ghost predicate AllCaughtUp(looks: seq<(string, Look)>)
      reads this
    {
      forall k :: 0 <= k < |looks| ==> CaughtUp(looks[k].0, looks[k].1)
    }

    method Sweep(looks: seq<(string, Look)>)
      requires Valid() && LooksOk(files, looks)
      modifies this
      ensures Valid() && StatesOf(events) == old(StatesOf(events))
      ensures forall p :: p in old(tails) ==> p in tails && old(tails)[p].offset <= tails[p].offset
      ensures AllCaughtUp(looks)
    {
      hide LookOk, Valid, StatesOf;
      for k := 0 to |looks|
        invariant Valid() && StatesOf(events) == old(StatesOf(events))
        invariant forall p :: p in old(tails) ==> p in tails && old(tails)[p].offset <= tails[p].offset
        invariant forall l :: 0 <= l < k ==> CaughtUp(looks[l].0, looks[l].1)
      {
        label Before:
        var (path, look) := looks[k];
        AdvanceGrows(files, path, look, if path in tails then tails[path].offset else 0);
        Visit(path, look);
        assert forall p :: p in old@Before(tails) ==> p in tails && old@Before(tails)[p].offset <= tails[p].offset;
      }
    }

    /** The unterminated last lines, file by file, in no particular order. */
    method FlushPartials()
      requires Valid()
      modifies this`events
      ensures StatesOf(events) == old(StatesOf(events)) && Undone(events) && Quoted(files, events)
      ensures forall p :: p in tails && Alone(tails, p) ==> LinesFrom(events, LogSource(p)) == AllTexts(Seen(files, tails, p))
    {
      hide Rest, LineTexts, LinesFrom, StatesOf, LogSource, Seen, Gained, Alone, Undone, Quoted, Quotes;
      var rest := tails.Keys;
      while rest != {}
        invariant rest <= tails.Keys
        invariant StatesOf(events) == old(StatesOf(events)) && Undone(events) && Quoted(files, events)
        invariant forall p :: p in rest && Alone(tails, p) ==> LinesFrom(events, LogSource(p)) == LineTexts(Seen(files, tails, p))
        invariant forall p :: p in tails && p !in rest && Alone(tails, p) ==> LinesFrom(events, LogSource(p)) == AllTexts(Seen(files, tails, p))
        decreases |rest|
      {
        var path :| path in rest;
        PartialIsRest(files, tails, path);
        label Before:
        if |tails[path].partial| > 0 {
          GainedOne(events, LogSource(path), tails[path].partial);
          PartialQuoted(files, tails, path);
          QuotedMore(files, events, LogEvent(LogSource(path), tails[path].partial));
          Emit(LogEvent(LogSource(path), tails[path].partial));
          ApartFrom(tails, path, old@Before(events), events, [tails[path].partial]);
        }
        rest := rest - {path};
      }
    }
  }

  lemma NothingGained(events: seq<Event>, source: string)
    ensures Gained(events, events, source, [])
  {
    hide LinesFrom, StatesOf;
  }

  lemma GainedStates(events: seq<Event>, after: seq<Event>, source: string, more: seq<string>)
    requires Gained(events, after, source, more)
    ensures StatesOf(after) == StatesOf(events)
  {
  }

  lemma OffsetBounded(files: map<string, string>, tails: map<string, Tail>, events: seq<Event>, path: string)
    requires Sound(files, tails, events) && path in tails
    ensures path in files && tails[path].offset <= |files[path]|
    ensures tails[path].partial == Rest(files[path][..tails[path].offset])
  {
    assert TailOk(files, tails, path);
  }

  lemma PartialIsRest(files: map<string, string>, tails: map<string, Tail>, path: string)
    requires TailsOk(files, tails) && path in tails
    ensures tails[path].partial == Rest(Seen(files, tails, path))
    ensures AllTexts(Seen(files, tails, path)) ==
      LineTexts(Seen(files, tails, path)) + if tails[path].partial == "" then [] else [tails[path].partial]
  {
    hide Rest, LineTexts;
    assert TailOk(files, tails, path);
  }

  /** A line reported for one file leaves every other file that is alone as it was. */
  lemma ApartFrom(tails: map<string, Tail>, path: string, events: seq<Event>, after: seq<Event>, more: seq<string>)
    requires Gained(events, after, LogSource(path), more) && path in tails
    ensures LinesFrom(after, LogSource(path)) == LinesFrom(events, LogSource(path)) + more
    ensures forall p :: Alone(tails, p) && p != path ==> LinesFrom(after, LogSource(p)) == LinesFrom(events, LogSource(p))
    ensures StatesOf(after) == StatesOf(events) && (Undone(events) ==> Undone(after))
  {
    hide LinesFrom, StatesOf, LogSource, Undone;
  }

  // ---------------------------------------------------------------- states, deduplicated

  /** The execution as the store has it. */
  datatype Stored = Stored(status: ExecStatus, steps: seq<StepResult>)

  function View(e: Stored): ExecutionState {
    ExecutionState(e.status, seq(|e.steps|, i requires 0 <= i < |e.steps| =>
      StepState(e.steps[i].name, e.steps[i].status, e.steps[i].exitCode)))
  }

  /** A state says of an execution what is stored: its status, and each step's name, status and exit code. */
  ghost predicate Depicts(state: ExecutionState, e: Stored) {
    && state.status == e.status && |state.steps| == |e.steps|
    && forall i :: 0 <= i < |e.steps| ==>
         && state.steps[i].name == e.steps[i].name
         && state.steps[i].status == e.steps[i].status
         && state.steps[i].exitCode == e.steps[i].exitCode
  }

  lemma ViewDepicts(e: Stored)
    ensures Depicts(View(e), e)
  {
  }

  method DescribeState(e: Stored) returns (state: ExecutionState)
    ensures state == View(e)
    ensures Depicts(state, e)
  {
    var steps: seq<StepState> := [];
    for i := 0 to |e.steps|
      invariant steps == View(e).steps[..i]
    {
      steps := steps + [StepState(e.steps[i].name, e.steps[i].status, e.steps[i].exitCode)];
    }
    state := ExecutionState(e.status, steps);
  }

  /** Each state that differs from the one before it. */
  function Changes(states: seq<ExecutionState>): seq<ExecutionState> {
    if states == [] then []
    else
      var last := |states| - 1;
      Changes(states[..last]) + if last > 0 && states[last - 1] == states[last] then [] else [states[last]]
  }

  lemma {:induction false} ChangesDiffer(states: seq<ExecutionState>)
    ensures states != [] ==> Changes(states) != [] && Changes(states)[|Changes(states)| - 1] == states[|states| - 1]
    ensures forall i :: 0 < i < |Changes(states)| ==> Changes(states)[i] != Changes(states)[i - 1]
  {
    if states != [] {
      ChangesDiffer(states[..|states| - 1]);
    }
  }

  /** The changes seen so far are the start of all changes. */
  lemma {:induction false} ChangesGrow(states: seq<ExecutionState>, k: nat)
    requires k <= |states|
    ensures Changes(states[..k]) <= Changes(states)
    decreases |states|
  {
    if k == |states| {
      assert states[..k] == states;
    } else {
      assert states[..|states| - 1][..k] == states[..k];
      ChangesGrow(states[..|states| - 1], k);
    }
  }

  lemma {:induction false} StateReported(events: seq<Event>, i: nat)
    requires i < |events| && events[i].StateEvent?
    ensures events[i].state in StatesOf(events)
  {
    if i < |events| - 1 {
      StateReported(events[..|events| - 1], i);
    }
  }

  lemma {:induction false} ChangesSeen(states: seq<ExecutionState>)
    ensures forall s :: s in Changes(states) ==> s in states
  {
    if states != [] {
      ChangesSeen(states[..|states| - 1]);
    }
  }

  // ---------------------------------------------------------------- following to the end

  /** One turn of the poller: a sweep, the stored execution, and the sweep made if it is terminal. */
  datatype Poll = Poll(looks: seq<(string, Look)>, execution: Stored, again: seq<(string, Look)>)

  ghost predicate PollsOk(files: map<string, string>, polls: seq<Poll>) {
    forall i :: 0 <= i < |polls| ==> LooksOk(files, polls[i].looks) && LooksOk(files, polls[i].again)
  }

  function Views(polls: seq<Poll>, k: nat): seq<ExecutionState>
    requires k <= |polls|
  {
    seq(k, i requires 0 <= i < k => View(polls[i].execution))
  }

  /**
   Follows an execution through a series of polls, until one finds it terminal or the polls run out
   because the viewer has left. When it finishes, the states reported are the changes between polls, each
   depicting what some poll found and the last one what the last poll did, the end is reported once, last,
   and each file that is alone under its source has been reported in full.
   */
  method StreamLogs(f: Follower, polls: seq<Poll>) returns (finished: bool, turns: nat)
    requires f.Valid() && f.tails == map[] && f.events == [] && PollsOk(f.files, polls)
    modifies f
    ensures turns <= |polls| && forall i :: 0 <= i < turns - 1 ==> !Terminal(polls[i].execution.status)
    ensures finished <==> turns > 0 && Terminal(polls[turns - 1].execution.status)
    ensures !finished ==> turns == |polls| && Undone(f.events)
    ensures StatesOf(f.events) == Changes(Views(polls, turns))
    ensures forall i :: 0 <= i < turns - 1 ==> polls[i].execution.status in {ExecPending, ExecRunning}
    ensures forall i :: 0 <= i < |f.events| && f.events[i].StateEvent? ==>
      exists j :: 0 <= j < turns && Depicts(f.events[i].state, polls[j].execution)
    ensures turns > 0 ==> StatesOf(f.events) != [] && Depicts(StatesOf(f.events)[|StatesOf(f.events)| - 1], polls[turns - 1].execution)
    ensures finished ==> polls[turns - 1].execution.status in {ExecSuccess, ExecFailed, ExecCanceled}
    ensures TailsOk(f.files, f.tails) && Quoted(f.files, f.events)
    ensures finished ==>
      && f.events != [] && f.events[|f.events| - 1] == DoneEvent(polls[turns - 1].execution.status)
      && Undone(f.events[..|f.events| - 1])
      && (forall p :: p in f.tails && Alone(f.tails, p) ==>
            LinesFrom(f.events, LogSource(p)) == AllTexts(Seen(f.files, f.tails, p)))
      && f.AllCaughtUp(polls[turns - 1].again)
  {
    hide StatesOf, LinesFrom, AllTexts, Seen, Changes, View, LooksOk, Alone, Terminal, Quoted, Depicts;
    var last := ExecutionState(ExecPending, []);
    var emitted := false;
    turns := 0;
    assert StatesOf(f.events) == [] && Changes(Views(polls, 0)) == [] by {
      NoStates(f.events, polls);
    }
    while turns < |polls|
      invariant turns <= |polls| && f.Valid()
      invariant forall i :: 0 <= i < turns ==> !Terminal(polls[i].execution.status)
      invariant forall i :: 0 <= i < turns ==> polls[i].execution.status in {ExecPending, ExecRunning}
      invariant StatesOf(f.events) == Changes(Views(polls, turns))
      invariant emitted == (turns > 0)
      invariant turns > 0 ==> last == View(polls[turns - 1].execution)
    {
      f.Sweep(polls[turns].looks);
      var state := DescribeState(polls[turns].execution);
      ChangesOne(polls, turns);
      if !emitted || last != state {
        EmitState(f, state);
        last := state;
        emitted := true;
      }
      TerminalMeans(polls[turns].execution.status);
      turns := turns + 1;
      if Terminal(polls[turns - 1].execution.status) {
        f.Sweep(polls[turns - 1].again);
        f.FlushPartials();
        QuotedMore(f.files, f.events, DoneEvent(polls[turns - 1].execution.status));
        EmitDone(f, polls[turns - 1].execution.status);
        StatesDepict(f.events, polls, turns);
        return true, turns;
      }
    }
    assert Undone(f.events);
    StatesDepict(f.events, polls, turns);
    finished := false;
  }

  lemma NoStates(events: seq<Event>, polls: seq<Poll>)
    ensures events == [] ==> StatesOf(events) == []
    ensures Changes(Views(polls, 0)) == []
  {
  }

  lemma StatesDepict(events: seq<Event>, polls: seq<Poll>, turns: nat)
    requires turns <= |polls| && StatesOf(events) == Changes(Views(polls, turns))
    ensures forall i :: 0 <= i < |events| && events[i].StateEvent? ==>
      exists j :: 0 <= j < turns && Depicts(events[i].state, polls[j].execution)
    ensures turns > 0 ==> StatesOf(events) != [] && Depicts(StatesOf(events)[|StatesOf(events)| - 1], polls[turns - 1].execution)
  {
    hide StatesOf, Changes, View, Depicts;
    var states := Views(polls, turns);
    ChangesDiffer(states);
    ChangesSeen(states);
    forall j | 0 <= j < turns ensures Depicts(states[j], polls[j].execution) {
      ViewDepicts(polls[j].execution);
    }
    forall i | 0 <= i < |events| && events[i].StateEvent?
      ensures exists j :: 0 <= j < turns && Depicts(events[i].state, polls[j].execution)
    {
      StateReported(events, i);
      var j :| 0 <= j < turns && states[j] == events[i].state;
      assert Depicts(events[i].state, polls[j].execution);
    }
  }

  lemma TerminalMeans(status: ExecStatus)
    ensures Terminal(status) <==> status in {ExecSuccess, ExecFailed, ExecCanceled}
    ensures !Terminal(status) <==> status in {ExecPending, ExecRunning}
  {
  }

  lemma ChangesOne(polls: seq<Poll>, k: nat)
    requires k < |polls|
    ensures Changes(Views(polls, k + 1)) == Changes(Views(polls, k)) +
      if k > 0 && View(polls[k - 1].execution) == View(polls[k].execution) then [] else [View(polls[k].execution)]
  {
    assert Views(polls, k + 1)[..k] == Views(polls, k);
  }

  method EmitState(f: Follower, state: ExecutionState)
    requires f.Valid()
    modifies f`events
    ensures f.Valid() && StatesOf(f.events) == old(StatesOf(f.events)) + [state]
  {
    hide LinesFrom, StatesOf, LogSource, Seen, Quoted;
    LinesFromOne(f.events, StateEvent(state), "");
    forall s {
      LinesFromOne(f.events, StateEvent(state), s);
    }
    QuotedMore(f.files, f.events, StateEvent(state));
    f.Emit(StateEvent(state));
  }

  method EmitDone(f: Follower, status: ExecStatus)
    modifies f`events
    ensures f.events == old(f.events) + [DoneEvent(status)]
    ensures StatesOf(f.events) == old(StatesOf(f.events))
    ensures forall s :: LinesFrom(f.events, s) == old(LinesFrom(f.events, s))
  {
    hide LinesFrom, StatesOf;
    LinesFromOne(f.events, DoneEvent(status), "");
    forall s {
      LinesFromOne(f.events, DoneEvent(status), s);
    }
    f.Emit(DoneEvent(status));
  }
}
