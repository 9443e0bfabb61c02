/** What a live view of an execution is told: log lines, states, and the end. */
module Events {
  import opened Lines
  import opened Steps
  import opened Outcome

  datatype StepState = StepState(name: string, status: StepStatus, exitCode: int)

  datatype ExecutionState = ExecutionState(status: ExecStatus, steps: seq<StepState>)

  datatype Event =
    | LogEvent(source: string, line: string)
    | StateEvent(state: ExecutionState)
    | DoneEvent(status: ExecStatus)

  /** The lines reported for a source, in order. */
  function LinesFrom(events: seq<Event>, source: string): seq<string> {
    if events == [] then []
    else
      var e := events[|events| - 1];
      LinesFrom(events[..|events| - 1], source) + if e.LogEvent? && e.source == source then [e.line] else []
  }

  /** The states reported, in order. */
  function StatesOf(events: seq<Event>): seq<ExecutionState> {
    if events == [] then []
    else
      var e := events[|events| - 1];
      StatesOf(events[..|events| - 1]) + if e.StateEvent? then [e.state] else []
  }

  predicate Undone(events: seq<Event>) {
    forall i :: 0 <= i < |events| ==> !events[i].DoneEvent?
  }

  /** The text of each line, without its newline. */
  function Bodies(ls: seq<string>): (r: seq<string>)
    requires AreLines(ls)
  {
    seq(|ls|, i requires 0 <= i < |ls| => ls[i][..|ls[i]| - 1])
  }

  /** The text of the complete lines of a file. */
  function LineTexts(s: string): seq<string> {
    CompleteAreLines(s);
    Bodies(Complete(s))
  }

  /** Every line of a file, an unterminated last one included. */
  function AllTexts(s: string): seq<string> {
    LineTexts(s) + if Rest(s) == "" then [] else [Rest(s)]
  }

  lemma LinesFromOne(events: seq<Event>, e: Event, source: string)
    ensures LinesFrom(events + [e], source)
         == LinesFrom(events, source) + if e.LogEvent? && e.source == source then [e.line] else []
    ensures StatesOf(events + [e]) == StatesOf(events) + if e.StateEvent? then [e.state] else []
  {
    assert (events + [e])[..|events|] == events;
  }

  lemma BodiesAppend(a: seq<string>, b: seq<string>)
    requires AreLines(a) && AreLines(b)
    ensures AreLines(a + b) && Bodies(a + b) == Bodies(a) + Bodies(b)
  {
  }

  /** The first complete line of what is left to read, and the rest of it. */
  lemma TextsCut(s: string)
    ensures Break(s) == |s| ==> LineTexts(s) == [] && Rest(s) == s
    ensures Break(s) < |s| ==> LineTexts(s) == [s[..Break(s)]] + LineTexts(s[Break(s) + 1..])
    ensures Break(s) < |s| ==> Rest(s) == Rest(s[Break(s) + 1..])
  {
    hide Break, Complete, Rest, LineTexts;
    CutRest(s, Break(s));
    if Break(s) < |s| {
      TextsFirst(s, Break(s));
    } else {
      TextsNone(s);
    }
  }

  lemma TextsNone(s: string)
    requires Break(s) == |s|
    ensures LineTexts(s) == []
  {
    hide Break, Complete, Rest, LineTexts;
    CutComplete(s, Break(s));
    TextsOf(s);
  }

  lemma TextsFirst(s: string, i: nat)
    requires i == Break(s) < |s|
    ensures LineTexts(s) == [s[..i]] + LineTexts(s[i + 1..])
  {
    hide Break, Complete, Rest, LineTexts, Bodies;
    CutComplete(s, i);
    TextsOf(s);
    TextsOf(s[i + 1..]);
    BodiesFirst(s[..i + 1], Complete(s[i + 1..]));
    assert s[..i + 1][..i] == s[..i];
  }

  lemma TextsOf(s: string)
    ensures AreLines(Complete(s)) && LineTexts(s) == Bodies(Complete(s))
  {
    hide Complete;
    CompleteAreLines(s);
  }

  lemma BodiesFirst(l: string, ls: seq<string>)
    requires AreLines([l] + ls) && AreLines(ls) && l != ""
    ensures Bodies([l] + ls) == [l[..|l| - 1]] + Bodies(ls)
  {
    assert ([l] + ls)[0] == l;
  }

  lemma TextsAppend(a: string, b: string)
    ensures LineTexts(a + b) == LineTexts(a) + LineTexts(Rest(a) + b)
    ensures Rest(a + b) == Rest(Rest(a) + b)
  {
    hide Break, Complete, Rest, Bodies, LineTexts;
    LinesAppend(a, b);
    TextsOf(a);
    TextsOf(Rest(a) + b);
    TextsOf(a + b);
    BodiesAppend(Complete(a), Complete(Rest(a) + b));
  }
}
