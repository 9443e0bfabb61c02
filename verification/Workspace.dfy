/**
 The names of log files, and the stream source a log file belongs to. A string is a sequence of
 runes, and a path is its directory, a slash, and the name of the file.
 */
module Workspace {
  predicate IsDigit(c: char) {
    '0' <= c <= '9'
  }

  function DigitChar(k: nat): (c: char)
    requires k < 10
    ensures IsDigit(c)
  {
    ('0' as int + k) as char
  }

  /** The decimal digits of `n`. */
  function Decimal(n: nat): (s: string)
    ensures s != "" && forall i :: 0 <= i < |s| ==> IsDigit(s[i])
  {
    if n < 10 then [DigitChar(n)] else Decimal(n / 10) + [DigitChar(n % 10)]
  }

  /** Decimal digits, padded with zeros to three places. */
  function Padded(n: nat): (s: string)
    ensures |s| >= 3 && forall i :: 0 <= i < |s| ==> IsDigit(s[i])
  {
    var d := Decimal(n);
    if |d| == 1 then "00" + d else if |d| == 2 then "0" + d else d
  }

  predicate FileSafe(r: char) {
    'a' <= r <= 'z' || 'A' <= r <= 'Z' || '0' <= r <= '9' || r == '-' || r == '_'
  }

  /** The name a step's log lines are streamed under: every other rune becomes an underscore. */
  function Source(step: string): (s: string)
    ensures |s| == |step|
    ensures forall i :: 0 <= i < |s| ==> FileSafe(s[i])
    ensures forall i :: 0 <= i < |s| ==> s[i] == if FileSafe(step[i]) then step[i] else '_'
  {
    seq(|step|, i requires 0 <= i < |step| => if FileSafe(step[i]) then step[i] else '_')
  }

  /** Letters, digits, dashes and underscores stay; whatever else stands there becomes an underscore. */
  lemma SourceMeans(step: string, i: nat)
    requires i < |step|
    ensures var r := step[i];
            ('a' <= r <= 'z' || 'A' <= r <= 'Z' || '0' <= r <= '9' || r == '-' || r == '_') ==> Source(step)[i] == r
    ensures var r := step[i];
            !('a' <= r <= 'z' || 'A' <= r <= 'Z' || '0' <= r <= '9' || r == '-' || r == '_') ==> Source(step)[i] == '_'
  {
  }

  method BuildSource(step: string) returns (b: string)
    ensures b == Source(step)
  {
    b := "";
    for i := 0 to |step|
      invariant |b| == i && b == Source(step)[..i]
    {
      if FileSafe(step[i]) {
        b := b + [step[i]];
      } else {
        b := b + ['_'];
      }
    }
  }

  function StepFile(index: nat, step: string): string {
    Padded(index) + "_" + Source(step) + ".log"
  }

  function StepLog(dir: string, index: nat, step: string): string {
    dir + "/steps/" + StepFile(index, step)
  }

  function SetupLog(dir: string): string {
    dir + "/setup.log"
  }

  /** What follows the last slash. */
  function Base(path: string): (b: string)
    ensures '/' !in b
  {
    if path == "" then ""
    else
      var last := path[|path| - 1];
      if last == '/' then "" else Base(path[..|path| - 1]) + [last]
  }

  function TrimSuffix(s: string, suffix: string): string {
    if |s| >= |suffix| && s[|s| - |suffix|..] == suffix then s[..|s| - |suffix|] else s
  }

  /** The position of the first underscore, or the length when there is none. */
  function Underscore(s: string): (i: nat)
    ensures i <= |s|
    ensures i < |s| ==> s[i] == '_'
    ensures forall j :: 0 <= j < i ==> s[j] != '_'
  {
    if s == "" || s[0] == '_' then 0
    else
      assert forall j :: 0 < j < |s| ==> s[j] == s[1..][j - 1];
      1 + Underscore(s[1..])
  }

  /** The stream source a log path belongs to. */
  function LogSource(path: string): string {
    var base := Base(path);
    if base == "setup.log" then "setup"
    else
      var name := TrimSuffix(base, ".log");
      var idx := Underscore(name);
      if idx < |name| then name[idx + 1..] else name
  }

  /** What log files are called: an index of at least three digits, and the step's source. */
  lemma StepLogReads(dir: string, index: nat, step: string) returns (digits: string)
    ensures StepLog(dir, index, step) == dir + ("/steps/" + digits + "_" + Source(step) + ".log")
    ensures (forall i :: 0 <= i < |digits| ==> '0' <= digits[i] <= '9') && Value(digits) == index
    ensures |digits| >= 3 && (index < 1000 ==> |digits| == 3)
    ensures SetupLog(dir) == dir + "/setup.log"
  {
    hide Value, Source;
    digits := Padded(index);
    ValueOfPadded(index);
    if index < 1000 {
      ThreeDigits(index);
    }
    LogJoined(dir, digits, Source(step));
  }

  lemma LogJoined(dir: string, digits: string, source: string)
    ensures dir + "/steps/" + (digits + "_" + source + ".log") == dir + ("/steps/" + digits + "_" + source + ".log")
  {
  }

  /** Indexes as they read in the names of log files. */
  lemma IndexTexts()
    ensures Padded(7) == "007" && Padded(42) == "042" && Padded(123) == "123"
  {
    assert Decimal(7) == "7";
    assert Decimal(42) == Decimal(4) + "2" == "42";
    assert Decimal(123) == Decimal(12) + "3" == Decimal(1) + "2" + "3" == "123";
  }

  lemma {:induction false} BaseOf(dir: string, name: string)
    requires '/' !in name
    ensures Base(dir + "/" + name) == name
  {
    var path := dir + "/" + name;
    if name != "" {
      var last := |name| - 1;
      assert path[..|path| - 1] == dir + "/" + name[..last];
      BaseOf(dir, name[..last]);
      assert path[|path| - 1] == name[last];
    } else {
      assert path[|path| - 1] == '/';
    }
  }

  lemma TrimmedSuffix(s: string, suffix: string)
    ensures TrimSuffix(s + suffix, suffix) == s
  {
    assert (s + suffix)[|s|..] == suffix;
    assert (s + suffix)[..|s|] == s;
  }

  lemma UnderscoreAfter(p: string, rest: string)
    requires '_' !in p
    ensures Underscore(p + "_" + rest) == |p|
  {
    hide Underscore;
    var s := p + "_" + rest;
    assert s[|p|] == '_';
    assert forall j :: 0 <= j < |p| ==> s[j] == p[j] && p[j] in p;
    assert !(Underscore(s) < |p|);
  }

  lemma StepFileFlat(index: nat, step: string)
    ensures '/' !in StepFile(index, step)
  {
    hide Padded, Source;
    var p, src := Padded(index), Source(step);
    assert forall i :: 0 <= i < |p| ==> IsDigit(p[i]);
    assert '/' !in p && '/' !in src && '/' !in ".log";
  }

  lemma NotSetup(p: string, rest: string)
    requires p != "" && IsDigit(p[0])
    ensures p + rest != "setup.log"
  {
    assert (p + rest)[0] == p[0] && "setup.log"[0] == 's';
  }

  /** The source read off a step's log path is the source of the step, whatever its index and name. */
  lemma SourceRoundTrip(dir: string, index: nat, step: string)
    ensures LogSource(StepLog(dir, index, step)) == Source(step)
  {
    hide Base, TrimSuffix, Underscore, Padded, Source;
    var p, src := Padded(index), Source(step);
    var stem := p + "_" + src;
    StepFileFlat(index, step);
    BaseOf(dir + "/steps", StepFile(index, step));
    assert dir + "/steps" + "/" + StepFile(index, step) == StepLog(dir, index, step);
    NotSetup(p, "_" + src + ".log");
    assert p + ("_" + src + ".log") == StepFile(index, step);
    TrimmedSuffix(stem, ".log");
    UnderscoreAfter(p, src);
    assert stem[|p| + 1..] == src;
  }

  lemma SetupSource(dir: string)
    ensures LogSource(SetupLog(dir)) == "setup"
  {
    BaseOf(dir, "setup.log");
    assert dir + "/" + "setup.log" == SetupLog(dir);
  }

  // ---------------------------------------------------------------- distinct steps, distinct files

  function Digit(c: char): nat {
    if IsDigit(c) then c as nat - '0' as nat else 0
  }

  /** The number a string of digits reads as. */
  function Value(s: string): nat {
    if s == "" then 0 else 10 * Value(s[..|s| - 1]) + Digit(s[|s| - 1])
  }

  lemma {:induction false} ValueOfDecimal(n: nat)
    ensures Value(Decimal(n)) == n
  {
    var s := Decimal(n);
    if n >= 10 {
      ValueOfDecimal(n / 10);
      assert s[..|s| - 1] == Decimal(n / 10);
    } else {
      assert s[..0] == "";
    }
  }

  lemma {:induction false} LeadingZero(s: string)
    ensures Value("0" + s) == Value(s)
  {
    if s == "" {
      assert ("0" + s)[..0] == "";
    } else {
      var last := |s| - 1;
      assert ("0" + s)[..last + 1] == "0" + s[..last];
      LeadingZero(s[..last]);
    }
  }

  lemma ValueOfPadded(n: nat)
    ensures Value(Padded(n)) == n
  {
    var d := Decimal(n);
    ValueOfDecimal(n);
    LeadingZero(d);
    LeadingZero("0" + d);
    assert "0" + ("0" + d) == "00" + d;
  }

  /** Two steps write the same file exactly when they have the same index and the same source. */
  lemma StepFileInjective(i: nat, s: string, j: nat, t: string)
    ensures StepFile(i, s) == StepFile(j, t) <==> i == j && Source(s) == Source(t)
  {
    if StepFile(i, s) == StepFile(j, t) {
      SourceRoundTrip("", i, s);
      SourceRoundTrip("", j, t);
      assert |Padded(i)| == |Padded(j)|;
      assert StepFile(i, s)[..|Padded(i)|] == Padded(i) && StepFile(j, t)[..|Padded(j)|] == Padded(j);
      ValueOfPadded(i);
      ValueOfPadded(j);
    }
  }

  // ---------------------------------------------------------------- listing the logs in step order

  /** Comparison of strings byte by byte. */
  predicate Less(a: string, b: string) {
    b != "" && (a == "" || a[0] < b[0] || (a[0] == b[0] && Less(a[1..], b[1..])))
  }

  lemma {:induction false} LessAt(a: string, b: string, k: nat)
    requires k < |a| && k < |b| && a[..k] == b[..k] && a[k] < b[k]
    ensures Less(a, b) && !Less(b, a)
    decreases k
  {
    if k > 0 {
      assert a[..k][0] == a[0] && b[..k][0] == b[0];
      assert a[1..][..k - 1] == a[..k][1..] && b[1..][..k - 1] == b[..k][1..];
      LessAt(a[1..], b[1..], k - 1);
    }
  }

  lemma {:induction false} LessTransitive(a: string, b: string, c: string)
    requires Less(a, b) && Less(b, c)
    ensures Less(a, c)
    decreases |a|
  {
    if a != "" && a[0] == b[0] == c[0] {
      LessTransitive(a[1..], b[1..], c[1..]);
    }
  }

  lemma {:induction false} LessTotal(a: string, b: string)
    ensures !(Less(a, b) && Less(b, a))
    ensures a == b || Less(a, b) || Less(b, a)
    decreases |a|
  {
    if a != "" && b != "" && a[0] == b[0] {
      LessTotal(a[1..], b[1..]);
      assert a == [a[0]] + a[1..] && b == [b[0]] + b[1..];
    }
  }

  lemma DecimalStep(n: nat)
    ensures n < 10 ==> Decimal(n) == [DigitChar(n)]
    ensures n >= 10 ==> Decimal(n) == Decimal(n / 10) + [DigitChar(n % 10)]
  {
  }

  lemma ThreeDigits(n: nat)
    requires n < 1000
    ensures Padded(n) == [DigitChar(n / 100), DigitChar(n / 10 % 10), DigitChar(n % 10)]
  {
    DecimalStep(n);
    DecimalStep(n / 10);
    DecimalStep(n / 100);
    hide Decimal, DigitChar;
    assert n / 10 / 10 == n / 100;
    if n >= 100 {
      assert Decimal(n) == [DigitChar(n / 100)] + [DigitChar(n / 10 % 10)] + [DigitChar(n % 10)];
    } else if n >= 10 {
      assert Decimal(n) == [DigitChar(n / 10)] + [DigitChar(n % 10)];
      assert DigitChar(0) == '0' by { Zero(); }
    } else {
      assert DigitChar(0) == '0' by { Zero(); }
    }
  }

  lemma Zero()
    ensures DigitChar(0) == '0'
  {
  }

  /** The first of three digits in which two numbers differ. */
  lemma FirstDifference(i: nat, j: nat) returns (k: nat)
    requires i < j < 1000
    ensures k < 3
    ensures k == 0 ==> i / 100 < j / 100
    ensures k == 1 ==> i / 100 == j / 100 && i / 10 % 10 < j / 10 % 10
    ensures k == 2 ==> i / 100 == j / 100 && i / 10 % 10 == j / 10 % 10 && i % 10 < j % 10
  {
    var x, y := i / 10, j / 10;
    assert x / 10 == i / 100 && y / 10 == j / 100;
    if x / 10 < y / 10 {
      k := 0;
    } else if x < y {
      k := 1;
    } else {
      k := 2;
    }
  }

  /** Up to three digits, the padded numbers sort like the numbers, whatever follows them. */
  lemma PaddedAscend(i: nat, j: nat, x: string, y: string)
    requires i < j < 1000
    ensures Less(Padded(i) + x, Padded(j) + y)
  {
    hide Padded, Decimal, Less;
    ThreeDigits(i);
    ThreeDigits(j);
    var k := FirstDifference(i, j);
    LessHeads(Padded(i), x, Padded(j), y, k);
  }

  lemma LessHeads(p: string, x: string, q: string, y: string, k: nat)
    requires k < |p| == |q| && p[k] < q[k] && forall m :: 0 <= m < k ==> p[m] == q[m]
    ensures Less(p + x, q + y)
  {
    hide Less;
    assert (p + x)[..k] == (q + y)[..k];
    LessAt(p + x, q + y, k);
  }

  ghost predicate SortInStepOrder(steps: nat) {
    forall i: nat, j: nat, s: string, t: string :: i < j < steps ==> Less(StepFile(i, s), StepFile(j, t))
  }

  /** Sorting the log files by name yields step order exactly when there are at most a thousand steps. */
  lemma StepOrderIff(steps: nat)
    ensures SortInStepOrder(steps) <==> steps <= 1000
  {
    if steps <= 1000 {
      forall i: nat, j: nat, s: string, t: string | i < j < steps ensures Less(StepFile(i, s), StepFile(j, t)) {
        PaddedAscend(i, j, "_" + Source(s) + ".log", "_" + Source(t) + ".log");
        assert StepFile(i, s) == Padded(i) + ("_" + Source(s) + ".log");
        assert StepFile(j, t) == Padded(j) + ("_" + Source(t) + ".log");
      }
    } else {
      ThousandthSortsFirst();
    }
  }

  lemma ThousandthSortsFirst()
    ensures !Less(StepFile(999, ""), StepFile(1000, ""))
  {
    ThreeDigits(999);
    ThreeDigits(100);
    assert Decimal(1000) == Decimal(100) + [DigitChar(0)];
    var a, b := StepFile(999, ""), StepFile(1000, "");
    assert a[0] == '9' && b[0] == '1';
  }

  datatype Entry = Entry(name: string, isDir: bool)
  {
    predicate IsLog() {
      !isDir && |name| >= 4 && name[|name| - 4..] == ".log"
    }
  }

  function LogNames(entries: seq<Entry>): seq<string> {
    if entries == [] then []
    else
      var last := |entries| - 1;
      LogNames(entries[..last]) + if entries[last].IsLog() then [entries[last].name] else []
  }

  function Insert(s: string, sorted: seq<string>): seq<string> {
    if sorted == [] || !Less(sorted[0], s) then [s] + sorted
    else [sorted[0]] + Insert(s, sorted[1..])
  }

  function Sorted(ss: seq<string>): seq<string> {
    if ss == [] then [] else Insert(ss[0], Sorted(ss[1..]))
  }

  /** The setup log, then every step log sorted by name. */
  method LogPaths(dir: string, setup: bool, entries: seq<Entry>) returns (out: seq<string>)
    ensures |out| == (if setup then 1 else 0) + |Sorted(LogNames(entries))|
    ensures setup ==> out[0] == SetupLog(dir)
    ensures forall i :: 0 <= i < |Sorted(LogNames(entries))| ==>
      out[|out| - |Sorted(LogNames(entries))| + i] == dir + "/steps/" + Sorted(LogNames(entries))[i]
  {
    out := if setup then [SetupLog(dir)] else [];
    var steps: seq<string> := [];
    for i := 0 to |entries|
      invariant steps == LogNames(entries[..i])
    {
      assert entries[..i + 1][..i] == entries[..i];
      if entries[i].IsLog() {
        steps := steps + [entries[i].name];
      }
    }
    assert entries[..|entries|] == entries;
    steps := Sorted(steps);
    out := out + seq(|steps|, i requires 0 <= i < |steps| => dir + "/steps/" + steps[i]);
  }

  ghost predicate Ascending(ss: seq<string>) {
    forall i, j :: 0 <= i < j < |ss| ==> Less(ss[i], ss[j])
  }

  lemma {:induction false} InsertSorts(s: string, ss: seq<string>)
    requires Ascending(ss) && s !in ss
    ensures Ascending(Insert(s, ss))
    ensures forall x :: x in Insert(s, ss) <==> x == s || x in ss
  {
    if ss != [] {
      LessTotal(ss[0], s);
      assert ss == [ss[0]] + ss[1..];
      if Less(ss[0], s) {
        InsertSorts(s, ss[1..]);
        forall x | x in Insert(s, ss[1..]) ensures Less(ss[0], x) {
        }
      } else {
        forall x | x in ss ensures Less(s, x) {
          if x != ss[0] {
            LessTransitive(s, ss[0], x);
          }
        }
      }
    }
  }

  lemma {:induction false} SortedAscends(ss: seq<string>)
    requires forall i, j :: 0 <= i < j < |ss| ==> ss[i] != ss[j]
    ensures Ascending(Sorted(ss)) && forall x :: x in Sorted(ss) <==> x in ss
  {
    if ss != [] {
      assert ss == [ss[0]] + ss[1..];
      SortedAscends(ss[1..]);
      assert ss[0] !in ss[1..];
      InsertSorts(ss[0], Sorted(ss[1..]));
    }
  }

  lemma {:induction false} AscendingUnique(a: seq<string>, b: seq<string>)
    requires Ascending(a) && Ascending(b) && forall x :: x in a <==> x in b
    ensures a == b
  {
    if b != [] {
      assert b[0] in a;
    }
    if a != [] {
      assert a[0] in b;
      SameFirst(a, b);
      assert a == [a[0]] + a[1..] && b == [b[0]] + b[1..];
      forall x ensures x in a[1..] <==> x in b[1..] {
        TailMember(a, x);
        TailMember(b, x);
      }
      AscendingUnique(a[1..], b[1..]);
    }
  }

  lemma TailMember(a: seq<string>, x: string)
    requires Ascending(a) && a != []
    ensures x in a[1..] <==> x in a && x != a[0]
  {
    LessTotal(a[0], a[0]);
    assert a == [a[0]] + a[1..];
  }

  lemma SameFirst(a: seq<string>, b: seq<string>)
    requires Ascending(a) && Ascending(b) && a != [] && b != [] && a[0] in b && b[0] in a
    ensures a[0] == b[0]
  {
    LessTotal(a[0], b[0]);
  }

  /** The names of the logs of the steps numbered `idx`. */
  function FilesOf(idx: seq<nat>, names: seq<string>): seq<string>
    requires forall k :: 0 <= k < |idx| ==> idx[k] < |names|
  {
    seq(|idx|, k requires 0 <= k < |idx| => StepFile(idx[k], names[idx[k]]))
  }

  lemma {:induction false} LogNamesMember(entries: seq<Entry>, n: string)
    ensures n in LogNames(entries) <==>
      exists i :: 0 <= i < |entries| && entries[i].name == n && !entries[i].isDir && |n| >= 4 && n[|n| - 4..] == ".log"
  {
    if entries != [] {
      var last := |entries| - 1;
      LogNamesMember(entries[..last], n);
      assert forall i :: 0 <= i < last ==> entries[..last][i] == entries[i];
    }
  }

  lemma {:induction false} LogNamesDistinct(entries: seq<Entry>)
    requires forall i, j :: 0 <= i < j < |entries| ==> entries[i].name != entries[j].name
    ensures forall i, j :: 0 <= i < j < |LogNames(entries)| ==> LogNames(entries)[i] != LogNames(entries)[j]
  {
    if entries != [] {
      var last := |entries| - 1;
      LogNamesDistinct(entries[..last]);
      LogNamesMember(entries[..last], entries[last].name);
    }
  }

  /** Of a directory, exactly the files with the suffix `.log` are listed, each once, ordered by name. */
  lemma LogsListed(entries: seq<Entry>)
    requires forall i, j :: 0 <= i < j < |entries| ==> entries[i].name != entries[j].name
    ensures var names := Sorted(LogNames(entries));
            && (forall i, j :: 0 <= i < j < |names| ==> Less(names[i], names[j]))
            && (forall n :: n in names <==> exists i :: 0 <= i < |entries| && entries[i].name == n && entries[i].IsLog())
  {
    hide LogNames, Sorted, Less;
    LogNamesDistinct(entries);
    SortedAscends(LogNames(entries));
    forall n ensures n in LogNames(entries) <==> exists i :: 0 <= i < |entries| && entries[i].name == n && entries[i].IsLog() {
      LogNamesMember(entries, n);
    }
  }

  /**
   However the directory lists them, the logs of the steps that have one so far come out in step
   order, when there are at most a thousand steps.
   */
  lemma LogsInStepOrder(idx: seq<nat>, names: seq<string>, found: seq<string>)
    requires |names| <= 1000 && forall k :: 0 <= k < |idx| ==> idx[k] < |names|
    requires forall k, l :: 0 <= k < l < |idx| ==> idx[k] < idx[l]
    requires multiset(found) == multiset(FilesOf(idx, names))
    ensures Sorted(found) == FilesOf(idx, names)
  {
    var files := FilesOf(idx, names);
    StepOrderIff(|names|);
    assert Ascending(files);
    forall k, l | 0 <= k < l < |files| ensures files[k] != files[l] {
      LessTotal(files[k], files[l]);
    }
    DistinctPermutation(files, found);
    SortedAscends(found);
    AscendingUnique(Sorted(found), files);
  }

  lemma DistinctPermutation(a: seq<string>, b: seq<string>)
    requires multiset(a) == multiset(b) && forall i, j :: 0 <= i < j < |a| ==> a[i] != a[j]
    ensures forall i, j :: 0 <= i < j < |b| ==> b[i] != b[j]
    ensures forall x :: x in a <==> x in b
  {
    forall x ensures x in a <==> x in b {
      assert x in multiset(a) <==> x in multiset(b);
    }
    forall i, j | 0 <= i < j < |b| ensures b[i] != b[j] {
      AtMostOnce(a, b[i]);
      CountTwice(b, i, j);
    }
  }

  lemma {:induction false} AtMostOnce(a: seq<string>, x: string)
    requires forall i, j :: 0 <= i < j < |a| ==> a[i] != a[j]
    ensures multiset(a)[x] <= 1
  {
    if a != [] {
      var last := |a| - 1;
      assert a == a[..last] + [a[last]];
      AtMostOnce(a[..last], x);
    }
  }

  lemma CountTwice(b: seq<string>, i: nat, j: nat)
    requires i < j < |b|
    ensures b[i] == b[j] ==> multiset(b)[b[i]] >= 2
  {
    assert b == b[..i] + [b[i]] + b[i + 1..j] + [b[j]] + b[j + 1..];
  }
}
