/**
 The wire between the server and its clients: each event becomes two fields and a blank line, and
 the client reads the fields back line by line. A string is a sequence of bytes.
 */
module Sse {
  import opened Sequences
  import opened Lines

  /** An event on the wire: its name, and its data. */
  datatype Message = Message(name: string, data: string)

  function Wire(m: Message): string {
    "event: " + m.name + "\n" + ("data: " + m.data + "\n" + "\n")
  }

  function WireAll(ms: seq<Message>): string {
    if ms == [] then "" else Wire(ms[0]) + WireAll(ms[1..])
  }

  // ---------------------------------------------------------------- reading lines

  /** The longest line the client's scanner can hold, its newline included. */
  const MAX_TOKEN := 65536

  datatype Scan = Line(text: string, rest: string) | End | TooLong

  function DropReturn(l: string): string {
    if l != "" && l[|l| - 1] == '\r' then l[..|l| - 1] else l
  }

  /** The next line of the input, without its line ending. */
  function ScanLine(input: string): (s: Scan)
    ensures s.Line? ==> |s.rest| < |input|
    ensures s.Line? && s.rest != "" ==> |s.text| + 1 + |s.rest| <= |input|
    ensures s.Line? ==> '\n' !in s.text
  {
    var i := Break(input);
    if i >= MAX_TOKEN then TooLong
    else if i < |input| then Line(DropReturn(input[..i]), input[i + 1..])
    else if input == "" then End
    else Line(DropReturn(input), "")
  }

  // ---------------------------------------------------------------- reading events

  predicate IsSpace(c: char) {
    c == ' ' || '\t' <= c <= '\r'
  }

  function TrimLeft(s: string): string {
    if s != "" && IsSpace(s[0]) then TrimLeft(s[1..]) else s
  }

  function TrimRight(s: string): string {
    if s != "" && IsSpace(s[|s| - 1]) then TrimRight(s[..|s| - 1]) else s
  }

  function TrimSpace(s: string): string {
    TrimRight(TrimLeft(s))
  }

  predicate HasPrefix(s: string, prefix: string) {
    |prefix| <= |s| && s[..|prefix|] == prefix
  }

  function TrimPrefix(s: string, prefix: string): string {
    if HasPrefix(s, prefix) then s[|prefix|..] else s
  }

  /** An event being assembled takes in one more line. */
  function Field(m: Message, line: string): Message {
    if HasPrefix(line, "event:") then m.(name := TrimSpace(TrimPrefix(line, "event:")))
    else if HasPrefix(line, "data:") then
      var value := TrimPrefix(TrimPrefix(line, "data:"), " ");
      m.(data := if m.data != "" then m.data + "\n" + value else value)
    else m
  }

  datatype NextResult = Got(event: Message, rest: string) | Ended(partial: Message) | Broken(partial: Message)

  /** What is read from `input` when `m` has been assembled so far. */
  function NextEvent(input: string, m: Message): (o: NextResult)
    ensures o.Got? ==> |o.rest| < |input|
    decreases |input|
  {
    match ScanLine(input)
    case End => Ended(m)
    case TooLong => Broken(m)
    case Line(text, rest) =>
      if text == "" && m == Message("", "") then NextEvent(rest, m)
      else if text == "" then Got(m, rest)
      else NextEvent(rest, Field(m, text))
  }

  /** One more line of an event, by what the scanner finds. */
  lemma OneMoreLine(input: string, m: Message)
    ensures ScanLine(input).End? ==> NextEvent(input, m) == Ended(m)
    ensures ScanLine(input).TooLong? ==> NextEvent(input, m) == Broken(m)
    ensures var s := ScanLine(input); s.Line? && s.text == "" ==>
      NextEvent(input, m) == if m == Message("", "") then NextEvent(s.rest, m) else Got(m, s.rest)
    ensures var s := ScanLine(input); s.Line? && s.text != "" ==> NextEvent(input, m) == NextEvent(s.rest, Field(m, s.text))
  {
    hide ScanLine, Field;
  }

  class EventStream {
    /** The bytes not scanned yet. */
    var input: string
    /** A line was too long: the scanner stays stopped. */
    var broken: bool

    constructor (body: string)
      ensures input == body && !broken
    {
      input, broken := body, false;
    }

    method ScanNext() returns (ok: bool, line: string)
      modifies this
      ensures old(broken) ==> !ok && broken && input == old(input)
      ensures !old(broken) ==> match ScanLine(old(input))
        case Line(text, rest) => ok && line == text && input == rest && !broken
        case End => !ok && !broken && input == old(input)
        case TooLong => !ok && broken && input == old(input)
    {
      line := "";
      if broken {
        return false, line;
      }
      match ScanLine(input) {
        case Line(text, rest) =>
          input := rest;
          return true, text;
        case End =>
          return false, line;
        case TooLong =>
          broken := true;
          return false, line;
      }
    }

    /** The next event, or the end of the stream, or the scanner's error. */
    method Next() returns (ev: Message, got: bool)
      requires !broken
      modifies this
      ensures match NextEvent(old(input), Message("", ""))
        case Got(event, rest) => got && ev == event && input == rest && !broken
        case Ended(partial) => !got && ev == partial && !broken
        case Broken(partial) => !got && ev == partial && broken
    {
      hide NextEvent, ScanLine, TrimSpace, TrimPrefix, HasPrefix;
      ev := Message("", "");
      while true
        invariant !broken && NextEvent(input, ev) == NextEvent(old(input), Message("", ""))
        decreases |input|
      {
        OneMoreLine(input, ev);
        var ok, line := ScanNext();
        if !ok {
          return ev, false;
        }
        if line == "" {
          if ev.name != "" || ev.data != "" {
            return ev, true;
          }
          assert ev == Message("", "");
          continue;
        }
        ghost var next := Field(ev, line);
        if HasPrefix(line, "event:") {
          ev := ev.(name := TrimSpace(TrimPrefix(line, "event:")));
        } else if HasPrefix(line, "data:") {
          var value := TrimPrefix(TrimPrefix(line, "data:"), " ");
          var data := ev.data;
          if data != "" {
            data := data + "\n";
          }
          ev := ev.(data := data + value);
        }
        assert ev == next;
      }
    }
  }

  /** Everything a client reads from a body, and whether the stream ended without an error or leftovers. */
  datatype Reading = Reading(events: seq<Message>, clean: bool)

  function ReadAll(input: string): Reading
    decreases |input|
  {
    match NextEvent(input, Message("", ""))
    case Got(event, rest) =>
      var more := ReadAll(rest);
      Reading([event] + more.events, more.clean)
    case Ended(partial) => Reading([], partial == Message("", ""))
    case Broken(_) => Reading([], false)
  }

  method ReadEvents(body: string) returns (r: Reading)
    ensures r == ReadAll(body)
  {
    var s := new EventStream(body);
    var events: seq<Message> := [];
    while true
      invariant !s.broken
      invariant Reading(events + ReadAll(s.input).events, ReadAll(s.input).clean) == ReadAll(body)
      decreases |s.input|
    {
      label Before:
      var ev, got := s.Next();
      if !got {
        assert events + [] == events;
        return Reading(events, !s.broken && ev == Message("", ""));
      }
      Assoc(events, [ev], ReadAll(s.input).events);
      events := events + [ev];
    }
  }

  // ---------------------------------------------------------------- one line at a time

  lemma ScanFirst(l: string, rest: string)
    requires '\n' !in l
    ensures ScanLine(l + "\n" + rest) == if |l| >= MAX_TOKEN then TooLong else Line(DropReturn(l), rest)
  {
    var input := l + "\n" + rest;
    BreakUnique(input, |l|);
    hide Break;
    assert input[..|l|] == l && input[|l| + 1..] == rest;
  }

  lemma ScanNothing()
    ensures ScanLine("") == End
  {
  }

  lemma NextLine(l: string, rest: string, m: Message)
    requires '\n' !in l && |l| < MAX_TOKEN && DropReturn(l) != ""
    ensures NextEvent(l + "\n" + rest, m) == NextEvent(rest, Field(m, DropReturn(l)))
  {
    hide ScanLine, Field;
    ScanFirst(l, rest);
  }

  lemma NextTooLong(l: string, rest: string, m: Message)
    requires '\n' !in l && |l| >= MAX_TOKEN
    ensures NextEvent(l + "\n" + rest, m) == Broken(m)
  {
    hide ScanLine;
    ScanFirst(l, rest);
  }

  lemma NextBlank(rest: string, m: Message)
    ensures NextEvent("\n" + rest, m) == if m == Message("", "") then NextEvent(rest, m) else Got(m, rest)
  {
    hide ScanLine;
    ScanFirst("", rest);
    assert "" + "\n" + rest == "\n" + rest;
  }

  lemma NextNothing(m: Message)
    ensures NextEvent("", m) == Ended(m)
  {
    hide ScanLine;
    ScanNothing();
  }

  // ---------------------------------------------------------------- trimming

  predicate Trimmed(s: string) {
    s == "" || (!IsSpace(s[0]) && !IsSpace(s[|s| - 1]))
  }

  lemma {:induction false} TrimLeftFacts(s: string)
    ensures var t := TrimLeft(s); (t != "" ==> !IsSpace(t[0])) && |t| <= |s| && t == s[|s| - |t|..]
  {
    if s != "" && IsSpace(s[0]) {
      TrimLeftFacts(s[1..]);
    }
  }

  lemma {:induction false} TrimRightFacts(s: string)
    ensures var t := TrimRight(s); t <= s && (t != "" ==> !IsSpace(t[|t| - 1]))
  {
    if s != "" && IsSpace(s[|s| - 1]) {
      TrimRightFacts(s[..|s| - 1]);
    }
  }

  lemma TrimSpaceFacts(s: string)
    ensures Trimmed(TrimSpace(s)) && forall c :: c in TrimSpace(s) ==> c in s
  {
    TrimLeftFacts(s);
    TrimRightFacts(TrimLeft(s));
  }

  /** A trimmed name survives the space put before it. */
  lemma SpaceTrimmed(s: string)
    requires Trimmed(s)
    ensures TrimSpace(" " + s) == s
  {
    assert (" " + s)[1..] == s;
    assert TrimLeft(" " + s) == TrimLeft(s) == s;
  }

  // ---------------------------------------------------------------- round trips

  /** What the wire can carry: limits, line breaks and blanks at the ends that reading would drop. */
  predicate Sendable(m: Message) {
    && m != Message("", "")
    && Trimmed(m.name) && '\n' !in m.name && |m.name| + 7 < MAX_TOKEN
    && DropReturn(m.data) == m.data && '\n' !in m.data && |m.data| + 6 < MAX_TOKEN
  }

  /** What the wire can carry but for a carriage return at the end of the data, which reading drops. */
  predicate Carriable(m: Message) {
    && AsRead(m) != Message("", "")
    && Trimmed(m.name) && '\n' !in m.name && |m.name| + 7 < MAX_TOKEN
    && '\n' !in m.data && |m.data| + 6 < MAX_TOKEN
  }

  function AsRead(m: Message): Message {
    m.(data := DropReturn(m.data))
  }

  function AllAsRead(ms: seq<Message>): seq<Message> {
    seq(|ms|, i requires 0 <= i < |ms| => AsRead(ms[i]))
  }

  lemma SendableIsCarriable(m: Message)
    ensures Sendable(m) <==> Carriable(m) && AsRead(m) == m
  {
  }

  lemma DropAfter(p: string, s: string)
    requires p != "" && p[|p| - 1] != '\r'
    ensures DropReturn(p + s) == p + DropReturn(s)
  {
    if s != "" {
      assert (p + s)[|p + s| - 1] == s[|s| - 1];
    }
  }

  lemma EventField(m: Message, name: string)
    requires Trimmed(name)
    ensures Field(m, "event: " + name) == m.(name := name)
  {
    var line := "event: " + name;
    assert line[..6] == "event:" && line[6..] == " " + name;
    SpaceTrimmed(name);
  }

  lemma DataField(name: string, data: string)
    ensures Field(Message(name, ""), "data: " + data) == Message(name, data)
  {
    var line := "data: " + data;
    assert line[..5] == "data:" && line[5..] == " " + data;
    assert (" " + data)[..1] == " " && (" " + data)[1..] == data;
    assert line[..5] != "event" && line[0] != 'e';
    assert !HasPrefix(line, "event:");
  }

  /** The name line of a message with a name the wire can carry. */
  lemma ReadName(m: Message, rest: string)
    requires Trimmed(m.name) && '\n' !in m.name && |m.name| + 7 < MAX_TOKEN
    ensures NextEvent(Wire(m) + rest, Message("", "")) == NextEvent("data: " + m.data + "\n" + ("\n" + rest), Message(m.name, ""))
  {
    hide NextEvent, Field, TrimSpace;
    var l := "event: " + m.name;
    var more := "data: " + m.data + "\n" + ("\n" + rest);
    assert Wire(m) + rest == l + "\n" + more;
    assert '\n' !in "event: ";
    DropAfter("event: ", m.name);
    assert DropReturn(m.name) == m.name;
    NextLine(l, more, Message("", ""));
    EventField(Message("", ""), m.name);
  }

  /** The data line, when it is a single line within the limit. */
  lemma ReadData(name: string, data: string, rest: string)
    requires '\n' !in data && |data| + 6 < MAX_TOKEN
    ensures NextEvent("data: " + data + "\n" + rest, Message(name, "")) == NextEvent(rest, Message(name, DropReturn(data)))
  {
    hide NextEvent, Field;
    assert '\n' !in "data: ";
    DropAfter("data: ", data);
    NextLine("data: " + data, rest, Message(name, ""));
    DataField(name, DropReturn(data));
  }

  lemma ReadSent(m: Message, rest: string)
    requires Carriable(m)
    ensures NextEvent(Wire(m) + rest, Message("", "")) == Got(AsRead(m), rest)
  {
    hide NextEvent, Wire;
    ReadName(m, rest);
    ReadData(m.name, m.data, "\n" + rest);
    NextBlank(rest, AsRead(m));
  }

  /** A client reads the events sent in order, each without a carriage return at its end, and then a clean end. */
  lemma {:induction false} StreamRead(ms: seq<Message>)
    requires forall i :: 0 <= i < |ms| ==> Carriable(ms[i])
    ensures ReadAll(WireAll(ms)) == Reading(AllAsRead(ms), true)
  {
    hide NextEvent, Wire, Carriable, AsRead;
    if ms == [] {
      NextNothing(Message("", ""));
    } else {
      ReadSent(ms[0], WireAll(ms[1..]));
      StreamRead(ms[1..]);
      assert AllAsRead(ms) == [AsRead(ms[0])] + AllAsRead(ms[1..]);
    }
  }

  /** A client reads back exactly the events sent, in order, and then a clean end. */
  lemma StreamRoundTrip(ms: seq<Message>)
    requires forall i :: 0 <= i < |ms| ==> Sendable(ms[i])
    ensures ReadAll(WireAll(ms)) == Reading(ms, true)
  {
    hide ReadAll, WireAll, Carriable, Sendable, AsRead;
    forall i | 0 <= i < |ms| ensures Carriable(ms[i]) && AsRead(ms[i]) == ms[i] {
      SendableIsCarriable(ms[i]);
    }
    StreamRead(ms);
    assert AllAsRead(ms) == ms;
  }

  predicate EndsInReturn(s: string) {
    s != "" && s[|s| - 1] == '\r'
  }

  /** What is read is what was sent, but for one carriage return at the end of the data, if there is one. */
  ghost predicate ReadAs(sent: Message, read: Message) {
    && read.name == sent.name
    && (EndsInReturn(sent.data) ==> sent.data == read.data + "\r")
    && (!EndsInReturn(sent.data) ==> read.data == sent.data)
  }

  /** A client reads every event sent that the wire can carry, in order, and then a clean end. */
  lemma StreamReadAs(ms: seq<Message>)
    requires forall i :: 0 <= i < |ms| ==> Carriable(ms[i])
    ensures var r := ReadAll(WireAll(ms));
            r.clean && |r.events| == |ms| && forall i :: 0 <= i < |ms| ==> ReadAs(ms[i], r.events[i])
  {
    hide ReadAll, WireAll, Carriable;
    StreamRead(ms);
  }

  /** One event on the wire: a carriage return at the end of its data is lost, any other data is kept. */
  lemma ReturnLost(name: string, d: string)
    requires name != "" && !IsSpace(name[0]) && !IsSpace(name[|name| - 1]) && '\n' !in name && |name| + 7 < 65536
    requires '\n' !in d && |d| + 7 < 65536
    ensures ReadAll("event: " + name + "\n" + "data: " + d + "\r" + "\n\n") == Reading([Message(name, d)], true)
    ensures (d == "" || d[|d| - 1] != '\r') ==>
              ReadAll("event: " + name + "\n" + "data: " + d + "\n\n") == Reading([Message(name, d)], true)
  {
    hide ReadAll, Wire, Carriable, AsRead, DropReturn;
    var m, n := Message(name, d + "\r"), Message(name, d);
    assert '\n' !in m.data && |m.data| == |d| + 1;
    NamedFits(m);
    NamedFits(n);
    OneRead(m);
    OneRead(n);
    WireText(name, d + "\r");
    WireText(name, d);
    ReturnGone(name, d);
    hide IsSpace;
    Assoc("event: " + name + "\n" + "data: ", d, "\r");
  }

  lemma NamedFits(m: Message)
    requires m.name != "" && !IsSpace(m.name[0]) && !IsSpace(m.name[|m.name| - 1]) && '\n' !in m.name && |m.name| + 7 < 65536
    requires '\n' !in m.data && |m.data| + 6 < 65536
    ensures Carriable(m)
  {
  }

  lemma OneRead(m: Message)
    requires Carriable(m)
    ensures ReadAll(Wire(m)) == Reading([AsRead(m)], true)
  {
    hide ReadAll, Wire, Carriable, AsRead;
    StreamRead([m]);
    assert WireAll([m]) == Wire(m);
    assert AllAsRead([m]) == [AsRead(m)];
  }

  lemma ReturnGone(name: string, d: string)
    ensures AsRead(Message(name, d + "\r")) == Message(name, d)
    ensures (d == "" || d[|d| - 1] != '\r') ==> AsRead(Message(name, d)) == Message(name, d)
  {
    assert (d + "\r")[..|d|] == d && (d + "\r")[|d|] == '\r';
  }

  /** What an event is on the wire. */
  lemma WireText(name: string, data: string)
    ensures Wire(Message(name, data)) == "event: " + name + "\n" + "data: " + data + "\n\n"
  {
    assert "\n" + "\n" == "\n\n";
  }

  /** A line of 65536 bytes, its field name included, is too long for the client: reading ends with an error. */
  lemma LineTooLong(name: string, d: string)
    requires name != "" && !IsSpace(name[0]) && !IsSpace(name[|name| - 1]) && '\n' !in name && |name| + 7 < 65536
    requires '\n' !in d && |d| + 6 >= 65536
    ensures ReadAll("event: " + name + "\n" + "data: " + d + "\n\n") == Reading([], false)
  {
    hide NextEvent;
    var m := Message(name, d);
    assert '\n' !in "data: ";
    ReadName(m, "");
    NextTooLong("data: " + d, "\n" + "", Message(name, ""));
    WireText(name, d);
    assert Wire(m) + "" == Wire(m);
  }

  /** Blanks of a line: spaces, tabs, vertical tabs, form feeds. */
  predicate Blank(s: string) {
    forall i :: 0 <= i < |s| ==> s[i] == ' ' || s[i] == '\t' || s[i] as int == 11 || s[i] as int == 12
  }

  predicate BareEnds(name: string) {
    name != "" && !Blank([name[0]]) && !Blank([name[|name| - 1]])
    && name[0] !in "\n\r" && name[|name| - 1] !in "\n\r"
  }

  lemma {:induction false} BlanksLeft(pre: string, s: string)
    requires Blank(pre)
    ensures TrimLeft(pre + s) == TrimLeft(s)
    decreases |pre|
  {
    if pre == "" {
      assert pre + s == s;
    } else {
      assert (pre + s)[1..] == pre[1..] + s;
      BlanksLeft(pre[1..], s);
    }
  }

  lemma {:induction false} BlanksRight(s: string, post: string)
    requires Blank(post)
    ensures TrimRight(s + post) == TrimRight(s)
    decreases |post|
  {
    if post == "" {
      assert s + post == s;
    } else {
      var last := |post| - 1;
      assert (s + post)[..|s + post| - 1] == s + post[..last];
      BlanksRight(s, post[..last]);
    }
  }

  lemma BlanksGone(pre: string, name: string, post: string)
    requires Blank(pre) && Blank(post) && BareEnds(name)
    ensures TrimSpace(pre + name + post) == name
  {
    assert pre + name + post == pre + (name + post);
    BlanksLeft(pre, name + post);
    assert (name + post)[0] == name[0];
    assert TrimLeft(name + post) == name + post;
    BlanksRight(name, post);
  }

  /** The name of an event is what its line holds but for blanks around it; a later name replaces an earlier one. */
  lemma NameLine(pre: string, name: string, post: string, rest: string, m: Message)
    requires Blank(pre) && Blank(post) && BareEnds(name) && '\n' !in name && |pre| + |name| + |post| + 6 < 65536
    ensures NextEvent("event:" + (pre + name + post) + "\n" + rest, m) == NextEvent(rest, m.(name := name))
  {
    hide NextEvent, TrimSpace;
    var value := pre + name + post;
    var line := "event:" + value;
    BlanksGone(pre, name, post);
    NoBreaks(pre, name, post);
    assert '\n' !in "event:";
    NextLine(line, rest, m);
    assert line[..6] == "event:" && line[6..] == value;
  }

  lemma NoBreaks(pre: string, name: string, post: string)
    requires Blank(pre) && Blank(post) && BareEnds(name) && '\n' !in name
    ensures '\n' !in pre + name + post && DropReturn("event:" + (pre + name + post)) == "event:" + (pre + name + post)
  {
    var value := pre + name + post;
    if post == "" {
      assert value[|value| - 1] == name[|name| - 1];
    } else {
      assert value[|value| - 1] == post[|post| - 1];
    }
    DropAfter("event:", value);
  }

  /** The field name is enough: a space after it is optional, and lines of other fields are passed over. */
  lemma OtherLines(line: string, rest: string, m: Message)
    requires '\n' !in line && line != "" && !EndsInReturn(line) && |line| < 65536
    requires |line| < 5 || line[..5] != "data:"
    requires |line| < 6 || line[..6] != "event:"
    ensures NextEvent(line + "\n" + rest, m) == NextEvent(rest, m)
  {
    hide NextEvent;
    NextLine(line, rest, m);
  }

  /** Further lines of data are joined with newlines; a space after the field name is optional. */
  lemma MoreData(d: string, rest: string, m: Message)
    requires '\n' !in d && !EndsInReturn(d) && (d == "" || d[0] != ' ') && |d| + 6 < 65536
    ensures NextEvent("data:" + d + "\n" + rest, m) == NextEvent("data: " + d + "\n" + rest, m)
    ensures NextEvent("data: " + d + "\n" + rest, m) == NextEvent(rest, m.(data := if m.data == "" then d else m.data + "\n" + d))
  {
    hide NextEvent;
    assert '\n' !in "data:" && '\n' !in "data: ";
    DataLine(d);
    NextLine("data:" + d, rest, m);
    NextLine("data: " + d, rest, m);
    FieldOfData(d, m);
  }

  lemma DataLine(d: string)
    requires !EndsInReturn(d)
    ensures DropReturn("data:" + d) == "data:" + d && DropReturn("data: " + d) == "data: " + d
  {
    DropAfter("data:", d);
    DropAfter("data: ", d);
  }

  lemma FieldOfData(d: string, m: Message)
    requires d == "" || d[0] != ' '
    ensures var n := m.(data := if m.data == "" then d else m.data + "\n" + d);
            Field(m, "data:" + d) == n && Field(m, "data: " + d) == n
  {
    var a, b := "data:" + d, "data: " + d;
    assert a[..5] == "data:" && a[5..] == d && b[..5] == "data:" && b[5..] == " " + d;
    assert (" " + d)[1..] == d && (" " + d)[..1] == " ";
    assert a[0] == 'd' && b[0] == 'd' && "event:"[0] == 'e';
    assert !HasPrefix(a, "event:") && !HasPrefix(b, "event:");
  }

  // ---------------------------------------------------------------- exactly which events survive

  lemma FieldName(m: Message, line: string)
    requires Trimmed(m.name) && '\n' !in m.name && '\n' !in line
    ensures Trimmed(Field(m, line).name) && '\n' !in Field(m, line).name
  {
    TrimSpaceFacts(TrimPrefix(line, "event:"));
  }

  lemma FieldLength(m: Message, line: string)
    ensures |Field(m, line).data| <= |m.data| || |Field(m, line).data| + 4 <= |m.data| + |line|
  {
  }

  /** A name that has been read is trimmed and on one line. */
  lemma {:induction false} NameRead(input: string, m: Message)
    requires Trimmed(m.name) && '\n' !in m.name
    ensures var o := NextEvent(input, m); o.Got? ==> Trimmed(o.event.name) && '\n' !in o.event.name
    decreases |input|
  {
    hide ScanLine, Field, Trimmed;
    match ScanLine(input)
    case End =>
    case TooLong =>
    case Line(text, rest) =>
      FieldName(m, text);
      NameRead(rest, if text == "" then m else Field(m, text));
  }

  /** Each further line of data costs more bytes on the wire than it adds. */
  lemma {:induction false} DataRead(input: string, m: Message)
    ensures var o := NextEvent(input, m);
      o.Got? ==> |o.event.data| <= |m.data| || |o.event.data| + |o.rest| + 6 <= |m.data| + |input|
    decreases |input|
  {
    hide Field;
    match ScanLine(input)
    case End =>
    case TooLong =>
    case Line(text, rest) =>
      NextNothing(if text == "" then m else Field(m, text));
      FieldLength(m, text);
      DataRead(rest, if text == "" then m else Field(m, text));
  }

  ghost predicate RoundTrips(m: Message) {
    ReadAll(Wire(m)) == Reading([m], true)
  }

  lemma FirstRead(m: Message)
    requires RoundTrips(m)
    ensures NextEvent(Wire(m), Message("", "")).Got? && NextEvent(Wire(m), Message("", "")).event == m
  {
    hide NextEvent, Wire;
    assert ReadAll(Wire(m)).events[0] == m;
  }

  lemma LongName(m: Message)
    requires '\n' !in m.name && |m.name| + 7 >= MAX_TOKEN
    ensures NextEvent(Wire(m), Message("", "")) == Broken(Message("", ""))
  {
    hide NextEvent;
    var more := "data: " + m.data + "\n" + "\n";
    assert '\n' !in "event: ";
    NextTooLong("event: " + m.name, more, Message("", ""));
  }

  /** Data that spans lines comes back shorter. */
  lemma BrokenData(name: string, data: string, rest: string)
    requires '\n' in data
    ensures var o := NextEvent("data: " + data + "\n" + rest, Message(name, ""));
      o.Got? && rest == "\n" ==> |o.event.data| < |data|
  {
    hide NextEvent, Break, DropReturn;
    var i := Break(data);
    assert i < |data| by {
      var k :| 0 <= k < |data| && data[k] == '\n';
    }
    var d, more := data[..i], data[i + 1..] + "\n" + rest;
    assert "data: " + data + "\n" + rest == "data: " + d + "\n" + more;
    if i + 6 >= MAX_TOKEN {
      assert '\n' !in "data: ";
      NextTooLong("data: " + d, more, Message(name, ""));
    } else {
      ReadData(name, d, more);
      Dropped(d);
      DataRead(more, Message(name, DropReturn(d)));
    }
  }

  lemma Dropped(s: string)
    ensures |DropReturn(s)| <= |s|
  {
  }

  /** An event comes back as it was sent exactly when the wire can carry it. */
  lemma RoundTripIff(m: Message)
    ensures RoundTrips(m) <==> Sendable(m)
  {
    hide NextEvent, Wire, RoundTrips;
    if Sendable(m) {
      StreamRoundTrip([m]);
      OneSent(m);
    } else if RoundTrips(m) {
      FirstRead(m);
      NameRead(Wire(m), Message("", ""));
      if |m.name| + 7 >= MAX_TOKEN {
        LongName(m);
      } else {
        ReadName(m, "");
        assert Wire(m) + "" == Wire(m) && "\n" + "" == "\n";
        UnsendableData(m);
      }
    }
  }

  lemma OneSent(m: Message)
    requires ReadAll(WireAll([m])) == Reading([m], true)
    ensures RoundTrips(m)
  {
    hide Wire;
    assert [m][1..] == [];
    assert WireAll([m]) == Wire(m) + "" == Wire(m);
  }

  lemma UnsendableData(m: Message)
    requires m == Message("", "") || DropReturn(m.data) != m.data || '\n' in m.data || |m.data| + 6 >= MAX_TOKEN
    ensures var o := NextEvent("data: " + m.data + "\n" + "\n", Message(m.name, "")); o.Got? ==> o.event != m
  {
    hide NextEvent, DropReturn;
    if '\n' in m.data {
      BrokenData(m.name, m.data, "\n");
    } else if |m.data| + 6 >= MAX_TOKEN {
      assert '\n' !in "data: ";
      NextTooLong("data: " + m.data, "\n", Message(m.name, ""));
    } else {
      ReadData(m.name, m.data, "\n");
      NextBlank("", Message(m.name, DropReturn(m.data)));
      assert "\n" + "" == "\n";
      NextNothing(Message(m.name, DropReturn(m.data)));
      assert DropReturn("") == "" by { Dropped(""); }
    }
  }
}
