/**
 The line-buffered writer that masks secrets in the output of a step. It receives the output in
 chunks, redacts each line once it is complete, and the unfinished rest when it is flushed.
 */
module MaskWriter {
  import opened Sequences
  import opened Lines
  import opened Redaction

  /** The secrets worth masking: the empty ones are dropped. */
  function Cleaned(secrets: seq<string>): seq<string> {
    if secrets == [] then []
    else
      var last := |secrets| - 1;
      Cleaned(secrets[..last]) + if secrets[last] != "" then [secrets[last]] else []
  }

  lemma {:induction false} CleanedMembers(secrets: seq<string>)
    ensures forall w :: w in Cleaned(secrets) <==> w in secrets && w != ""
  {
    if secrets != [] {
      var last := |secrets| - 1;
      assert secrets == secrets[..last] + [secrets[last]];
      CleanedMembers(secrets[..last]);
    }
  }

  /** Each line redacted on its own. */
  function RedactEach(ls: seq<string>, secrets: seq<string>): seq<string> {
    seq(|ls|, i requires 0 <= i < |ls| => Redact(ls[i], secrets))
  }

  /** The bytes a whole output comes out as: its lines, and its rest, each redacted on its own. */
  function Masked(input: string, secrets: seq<string>): string {
    Concat(RedactEach(Complete(input), secrets)) + Redact(Rest(input), secrets)
  }

  class Writer {
    const secrets: seq<string>
    var buf: string
    /** The bytes handed to the underlying file so far. */
    var out: string
    /** Everything written to this writer so far. */
    ghost var input: string

    /** What is in the buffer and the file depends on the bytes written, not on how they were cut. */
    ghost predicate Valid()
      reads this
    {
      buf == Rest(input) && out == Concat(RedactEach(Complete(input), secrets))
    }

    constructor (secrets: seq<string>)
      ensures this.secrets == Cleaned(secrets) && input == "" && out == "" && Valid()
      ensures forall w :: w in this.secrets <==> w in secrets && w != ""
    {
      var cleaned: seq<string> := [];
      for i := 0 to |secrets|
        invariant cleaned == Cleaned(secrets[..i])
      {
        assert secrets[..i + 1][..i] == secrets[..i];
        if secrets[i] != "" {
          cleaned := cleaned + [secrets[i]];
        }
      }
      assert secrets[..|secrets|] == secrets;
      this.secrets := cleaned;
      buf, out, input := "", "", "";
      new;
      Cut("", Break(""));
      CleanedMembers(secrets);
    }

    method Write(p: string)
      requires Valid()
      modifies this
      ensures Valid() && input == old(input) + p
      ensures '\n' !in buf
      ensures old(out) <= out
    {
      hide Break, Complete, Rest, Redact, RedactEach, Concat, Cleaned;
      LinesAppend(input, p);
      RedactEachAppend(Complete(input), Complete(Rest(input) + p), secrets);
      ConcatAppend(RedactEach(Complete(input), secrets), RedactEach(Complete(Rest(input) + p), secrets));
      input := input + p;
      buf := buf + p;
      DrainLines();
    }

    /** The loop over the buffered lines. */
    method DrainLines()
      modifies this`buf, this`out
      ensures buf == Rest(old(buf)) && '\n' !in buf
      ensures out == old(out) + Concat(RedactEach(Complete(old(buf)), secrets))
    {
      hide Break, Complete, Rest, Redact, RedactEach, Concat;
      ghost var todo := Complete(buf);
      assert out + Concat(RedactEach(Complete(buf), secrets)) == old(out) + Concat(RedactEach(todo, secrets));
      while true
        invariant Rest(buf) == Rest(old(buf))
        invariant out + Concat(RedactEach(Complete(buf), secrets)) == old(out) + Concat(RedactEach(todo, secrets))
        decreases |buf|
      {
        var idx := Break(buf);
        Cut(buf, Break(buf));
        if idx == |buf| {
          EmptyEach(secrets);
          assert out + "" == out;
          break;
        }
        var line := buf[..idx + 1];
        EachFirst(line, Complete(buf[idx + 1..]), secrets);
        Assoc(out, Redact(line, secrets), Concat(RedactEach(Complete(buf[idx + 1..]), secrets)));
        buf := buf[idx + 1..];
        out := out + Redact(line, secrets);
      }
    }

    /** The flush at the end of a step: the file then holds the redaction of the whole output. */
    method Flush()
      requires Valid()
      modifies this`buf, this`out
      ensures buf == "" && out == Masked(input, secrets)
    {
      hide Break, Complete, Rest, Redact, RedactEach, Concat;
      if |buf| == 0 {
        RedactEmpty(secrets);
        assert out + "" == out;
        return;
      }
      out := out + Redact(buf, secrets);
      buf := "";
    }
  }

  /** Whatever the chunks, the file ends up with the redaction of the output they make up. */
  method MaskOutput(chunks: seq<string>, secrets: seq<string>) returns (out: string)
    ensures out == Masked(Concat(chunks), secrets)
  {
    var w := new Writer(secrets);
    for i := 0 to |chunks|
      invariant w.Valid() && w.secrets == Cleaned(secrets) && w.input == Concat(chunks[..i])
    {
      assert chunks[..i + 1] == chunks[..i] + [chunks[i]];
      ConcatAppend(chunks[..i], [chunks[i]]);
      assert Concat([chunks[i]]) == chunks[i];
      w.Write(chunks[i]);
    }
    assert chunks[..|chunks|] == chunks;
    w.Flush();
    MaskedCleaned(Concat(chunks), secrets);
    out := w.out;
  }

  // ---------------------------------------------------------------- the line functions

  lemma EmptyEach(secrets: seq<string>)
    ensures Concat(RedactEach([], secrets)) == ""
  {
  }

  lemma EachFirst(l: string, ls: seq<string>, secrets: seq<string>)
    ensures RedactEach([l] + ls, secrets) == [Redact(l, secrets)] + RedactEach(ls, secrets)
    ensures Concat(RedactEach([l] + ls, secrets)) == Redact(l, secrets) + Concat(RedactEach(ls, secrets))
  {
    hide Redact;
    assert RedactEach([l] + ls, secrets) == [Redact(l, secrets)] + RedactEach(ls, secrets);
    ConcatCons(Redact(l, secrets), RedactEach(ls, secrets));
  }

  lemma RedactEachAppend(a: seq<string>, b: seq<string>, secrets: seq<string>)
    ensures RedactEach(a + b, secrets) == RedactEach(a, secrets) + RedactEach(b, secrets)
  {
    hide Redact;
  }

  lemma {:induction false} RedactEmpty(secrets: seq<string>)
    ensures Redact("", secrets) == ""
  {
    if secrets != [] {
      RedactEmpty(secrets[1..]);
    }
  }

  lemma {:induction false} RedactSplit(s: string, a: seq<string>, b: seq<string>)
    ensures Redact(s, a + b) == Redact(Redact(s, a), b)
    decreases |a|
  {
    if a == [] {
      assert a + b == b;
    } else {
      assert (a + b)[1..] == a[1..] + b;
      RedactSplit(if a[0] == "" then s else ReplaceAll(s, a[0]), a[1..], b);
    }
  }

  /** Dropping the empty secrets up front changes nothing. */
  lemma {:induction false} RedactCleaned(s: string, secrets: seq<string>)
    ensures Redact(s, Cleaned(secrets)) == Redact(s, secrets)
    decreases |secrets|
  {
    if secrets != [] {
      var last := |secrets| - 1;
      var before, sec := secrets[..last], secrets[last];
      var kept := if sec != "" then [sec] else [];
      RedactCleaned(s, before);
      assert secrets == before + [sec] && Cleaned(secrets) == Cleaned(before) + kept;
      RedactSplit(s, before, [sec]);
      RedactSplit(s, Cleaned(before), kept);
      RedactOne(Redact(s, before), sec);
    }
  }

  lemma RedactOne(s: string, sec: string)
    ensures Redact(s, [sec]) == if sec != "" then ReplaceAll(s, sec) else s
    ensures Redact(s, []) == s
  {
    assert [sec][1..] == [];
  }

  lemma MaskedCleaned(input: string, secrets: seq<string>)
    ensures Masked(input, Cleaned(secrets)) == Masked(input, secrets)
  {
    hide Redact, Cleaned, Complete, Rest;
    var ls := Complete(input);
    forall i | 0 <= i < |ls| ensures Redact(ls[i], Cleaned(secrets)) == Redact(ls[i], secrets) {
      RedactCleaned(ls[i], secrets);
    }
    RedactCleaned(Rest(input), secrets);
    assert RedactEach(ls, Cleaned(secrets)) == RedactEach(ls, secrets);
  }

  // ---------------------------------------------------------------- secrets in the whole output

  ghost predicate EndsMask(s: string) {
    |s| >= 3 && s[|s| - 3..] == MASK
  }

  /** No safe secret without inner newlines can straddle this end. */
  ghost predicate Sealed(s: string) {
    s != "" && (s[|s| - 1] == '\n' || EndsMask(s))
  }

  predicate Stars(s: string) {
    forall i :: 0 <= i < |s| ==> s[i] == '*'
  }

  lemma {:induction false} StarsStay(s: string, w: string)
    requires w != "" && Stars(s)
    ensures Stars(ReplaceAll(s, w))
  {
    if |s| >= |w| {
      if s[..|w|] == w {
        StarsStay(s[|w|..], w);
      } else {
        StarsStay(s[1..], w);
      }
    }
  }

  lemma StarsPrefix(s: string, w: string)
    requires Stars(s) && w <= s
    ensures Stars(w)
  {
  }

  /** Among stars, a text that is not all stars is not found. */
  lemma {:induction false} StarsUntouched(s: string, w: string)
    requires w != "" && Stars(s) && !Stars(w)
    ensures ReplaceAll(s, w) == s
  {
    if |s| >= |w| {
      if s[..|w|] == w {
        StarsPrefix(s, w);
      } else {
        StarsUntouched(s[1..], w);
      }
    }
  }

  lemma MaskThen(t: string)
    requires Stars(t) || EndsMask(t)
    ensures EndsMask(MASK + t)
  {
    var u := MASK + t;
    if Stars(t) {
      assert u[|u| - 3..] == MASK;
    } else {
      EndsMaskAppend(MASK, t);
    }
  }

  lemma EndsMaskAppend(a: string, b: string)
    requires EndsMask(b)
    ensures EndsMask(a + b)
  {
    assert (a + b)[|a + b| - 3..] == b[|b| - 3..];
  }

  lemma TailEnds(s: string, k: nat)
    requires EndsMask(s) && k <= |s|
    ensures if k <= |s| - 3 then EndsMask(s[k..]) else Stars(s[k..])
  {
    if k <= |s| - 3 {
      assert s[k..][|s| - k - 3..] == s[|s| - 3..];
    } else {
      forall i | 0 <= i < |s| - k ensures s[k..][i] == '*' {
        assert s[k..][i] == s[|s| - 3..][k + i - (|s| - 3)];
      }
    }
  }

  lemma StarsFit(w: string)
    requires Stars(w) && |w| <= 3
    ensures w <= MASK
  {
  }

  lemma MaskAlone(w: string)
    requires w != "" && !(w <= MASK)
    ensures ReplaceAll(MASK, w) == MASK
  {
    if |w| <= 3 {
      if Stars(w) {
        StarsFit(w);
      }
      StarsUntouched(MASK, w);
    }
  }

  lemma {:induction false} MaskEndStays(s: string, w: string)
    requires w != "" && EndsMask(s)
    ensures EndsMask(ReplaceAll(s, w))
    decreases |s|
  {
    hide EndsMask, Stars;
    if |s| >= |w| {
      if s[..|w|] == w {
        var tail := s[|w|..];
        TailEnds(s, |w|);
        if |w| <= |s| - 3 {
          MaskEndStays(tail, w);
        } else {
          StarsStay(tail, w);
        }
        MaskThen(ReplaceAll(tail, w));
      } else if |s| <= 3 {
        JustMask(s);
        MaskAlone(w);
      } else {
        TailEnds(s, 1);
        MaskEndStays(s[1..], w);
        EndsMaskAppend([s[0]], ReplaceAll(s[1..], w));
      }
    }
  }

  lemma JustMask(s: string)
    requires EndsMask(s) && |s| <= 3
    ensures s == MASK
  {
  }

  lemma {:induction false} NewlineEndSeals(s: string, w: string)
    requires w != "" && s != "" && s[|s| - 1] == '\n'
    ensures Sealed(ReplaceAll(s, w))
  {
    if |s| >= |w| {
      if s[..|w|] == w {
        if |s| > |w| {
          NewlineEndSeals(s[|w|..], w);
          SealedAppend(MASK, ReplaceAll(s[|w|..], w));
        } else {
          assert s[|w|..] == "";
          MaskThen("");
        }
      } else if |s| > 1 {
        NewlineEndSeals(s[1..], w);
        SealedAppend([s[0]], ReplaceAll(s[1..], w));
      }
    }
  }

  lemma SealedAppend(a: string, b: string)
    requires Sealed(b)
    ensures Sealed(a + b)
  {
    if EndsMask(b) {
      assert (a + b)[|a + b| - 3..] == b[|b| - 3..];
    }
  }

  lemma {:induction false} SealedStays(s: string, secrets: seq<string>)
    requires Sealed(s)
    ensures Sealed(Redact(s, secrets))
    decreases |secrets|
  {
    if secrets != [] {
      var w := secrets[0];
      if w != "" {
        if EndsMask(s) {
          MaskEndStays(s, w);
        } else {
          NewlineEndSeals(s, w);
        }
      }
      SealedStays(if w == "" then s else ReplaceAll(s, w), secrets[1..]);
    }
  }

  /** A newline in the secret is allowed at its end only. */
  predicate OneLine(w: string) {
    forall i :: 0 <= i < |w| - 1 ==> w[i] != '\n'
  }

  lemma NoStraddle(a: string, b: string, w: string)
    requires Sealed(a) && Safe(w) && OneLine(w) && Contains(a + b, w)
    ensures Contains(a, w) || Contains(b, w)
  {
    var i: nat :| OccursAt(a + b, w, i);
    if i + |w| <= |a| {
      assert (a + b)[i..i + |w|] == a[i..i + |w|];
      assert OccursAt(a, w, i);
    } else if i >= |a| {
      OccursLater(a + b, w, |a|, i - |a|);
      assert (a + b)[|a|..] == b;
      assert OccursAt(b, w, i - |a|);
    } else {
      OccurrenceChars(a + b, w, i);
      assert (a + b)[i + (|a| - 1 - i)] == a[|a| - 1] == w[|a| - 1 - i];
      StraddlesMask(a, b, w, i);
    }
  }

  lemma StraddlesMask(a: string, b: string, w: string, i: nat)
    requires OccursAt(a + b, w, i) && i < |a| < i + |w| && EndsMask(a) && w != ""
    ensures w[0] == '*' || Contains(w, MASK)
  {
    OccurrenceChars(a + b, w, i);
    var m := |a| - 3;
    assert a[m..][0] == a[m] && a[m..][1] == a[m + 1] && a[m..][2] == a[m + 2];
    assert (a + b)[i + 0] == w[0];
    if i <= m {
      forall j: nat | j < 3 ensures w[m - i + j] == MASK[j] {
        assert (a + b)[i + (m - i + j)] == w[m - i + j];
      }
      assert w[m - i..m - i + 3] == MASK;
      assert OccursAt(w, MASK, m - i);
    } else {
      assert a[i] == '*';
    }
  }

  lemma {:induction false} LinesHide(ls: seq<string>, tail: string, secrets: seq<string>, w: string)
    requires Safe(w) && OneLine(w) && w in secrets && AreLines(ls) && !Contains(tail, w)
    ensures !Contains(Concat(RedactEach(ls, secrets)) + tail, w)
  {
    hide Redact, Safe;
    if ls == [] {
      EmptyEach(secrets);
      assert "" + tail == tail;
    } else {
      var l := Redact(ls[0], secrets);
      var rest := Concat(RedactEach(ls[1..], secrets));
      LinesHide(ls[1..], tail, secrets, w);
      SafeSecretGone(ls[0], secrets, w);
      SealedStays(ls[0], secrets);
      assert ls == [ls[0]] + ls[1..];
      EachFirst(ls[0], ls[1..], secrets);
      Assoc(l, rest, tail);
      if Contains(l + (rest + tail), w) {
        NoStraddle(l, rest + tail, w);
      }
    }
  }

  /** A safe secret without inner newlines appears nowhere in the file, not even across lines. */
  lemma OutputHides(input: string, secrets: seq<string>, w: string)
    requires Safe(w) && OneLine(w) && w in secrets
    ensures !Contains(Masked(input, secrets), w)
  {
    hide Redact, Complete, Rest, Safe;
    CompleteAreLines(input);
    SafeSecretGone(Rest(input), secrets, w);
    LinesHide(Complete(input), Redact(Rest(input), secrets), secrets, w);
  }

  // ---------------------------------------------------------------- exactly which secrets are hidden

  lemma {:induction false} LinesShort(s: string)
    ensures forall l :: l in Complete(s) ==> |l| <= |s|
    decreases |s|
  {
    hide Break, Complete;
    Cut(s, Break(s));
    if Break(s) < |s| {
      LinesShort(s[Break(s) + 1..]);
    }
  }

  lemma ShortUntouched(s: string, w: string)
    requires |s| < |w|
    ensures Redact(s, [w]) == s
  {
    RedactOne(s, w);
  }

  lemma ShortLinesUntouched(ls: seq<string>, w: string)
    requires forall l :: l in ls ==> |l| < |w|
    ensures RedactEach(ls, [w]) == ls
  {
    hide Redact;
    forall i | 0 <= i < |ls| ensures Redact(ls[i], [w]) == ls[i] {
      assert ls[i] in ls;
      ShortUntouched(ls[i], w);
    }
  }

  /** A secret with a newline inside is never seen whole, so it is written out as it is. */
  lemma MultiLineSecretShown(w: string)
    requires w != "" && !OneLine(w)
    ensures Masked(w, [w]) == w
  {
    hide Redact, Break, Complete, Rest, RedactEach, Concat;
    var i := Break(w);
    Cut(w, Break(w));
    assert i < |w| - 1;
    LinesShort(w[i + 1..]);
    ShortLinesUntouched(Complete(w), w);
    ShortUntouched(Rest(w[i + 1..]), w);
    LinesRebuild(w);
  }

  lemma MaskedUnbroken(s: string, secrets: seq<string>)
    requires '\n' !in s
    ensures Masked(s, secrets) == Redact(s, secrets)
  {
    hide Redact, Break, Complete, Rest;
    BreakUnique(s, |s|);
    Cut(s, Break(s));
    EmptyEach(secrets);
  }

  /** Two lines, or one when the second is empty. */
  lemma MaskedTwo(a: string, b: string, secrets: seq<string>)
    requires IsLine(a) && (b == "" || IsLine(b))
    ensures Masked(a + b, secrets) == Redact(a, secrets) + Redact(b, secrets)
  {
    hide Redact, Break, Complete, Rest, IsLine;
    RedactEmpty(secrets);
    var ls := if b == "" then [a] else [a, b];
    assert Concat([b]) == b && Concat([a]) == a;
    ConcatCons(a, [b]);
    assert [a] + [b] == [a, b] && [a] + [] == [a];
    assert a + b == Concat(ls) + "";
    LinesOf(ls, "");
    EachFirst(a, [], secrets);
    EachFirst(a, [b], secrets);
    EachFirst(b, [], secrets);
    assert [b] + [] == [b];
    EmptyEach(secrets);
  }

  lemma ProperPrefixUnbroken(w: string, head: string)
    requires OneLine(w) && head < w
    ensures '\n' !in head
  {
    assert forall i :: 0 <= i < |head| ==> head[i] == w[i];
  }

  lemma SuffixIsLine(w: string, tail: string)
    requires OneLine(w) && w != "" && w[|w| - 1] == '\n' && tail != "" && |tail| <= |w| && tail == w[|w| - |tail|..]
    ensures IsLine(tail)
  {
    assert forall i :: 0 <= i < |tail| ==> tail[i] == w[|w| - |tail| + i];
  }

  /** The text an unsafe secret survives in comes out of the writer as it comes out of the replacement. */
  lemma RemnantMasked(w: string, r: Remnant)
    requires r.Survives(w) && OneLine(w)
    ensures Masked(r.Text(w), [w]) == r.Masked()
  {
    hide Redact, Masked;
    ProperPrefixUnbroken(w, r.head);
    if w[|w| - 1] == '\n' {
      var a := r.head + w;
      assert IsLine(a) by {
        assert forall i :: 0 <= i < |a| - 1 ==> a[i] != '\n';
      }
      if r.tail != "" {
        SuffixIsLine(w, r.tail);
      }
      MaskedTwo(a, r.tail, [w]);
      ShortUntouched(r.tail, w);
      HeadMasked(w, r);
    } else {
      assert forall i :: 0 <= i < |w| ==> w[i] != '\n';
      assert forall i :: 0 <= i < |r.tail| ==> r.tail[i] == w[|w| - |r.tail| + i];
      MaskedUnbroken(r.Text(w), [w]);
      RedactOne(r.Text(w), w);
    }
  }

  lemma HeadMasked(w: string, r: Remnant)
    requires r.Survives(w)
    ensures Redact(r.head + w, [w]) == r.head + MASK
  {
    var a := r.head + w;
    forall i: nat | i < |r.head| ensures !OccursAt(a + "", w, i) {
      assert a + "" == a && !OccursAt(r.Text(w), w, i);
      if i + |w| <= |a| {
        assert r.Text(w)[i..i + |w|] == a[i..i + |w|];
      }
    }
    ReplaceMiddle(r.head, w, "");
    assert a + "" == a && r.head + MASK + "" == r.head + MASK;
    RedactOne(a, w);
  }

  ghost predicate NeverWritten(w: string) {
    forall input, secrets: seq<string> :: w in secrets ==> !Contains(Masked(input, secrets), w)
  }

  /**
   A non-empty secret never reaches the file, in any output and any company, exactly when it is safe
   and has no newline before its last byte.
   */
  lemma WriterHidesIff(w: string)
    requires w != ""
    ensures NeverWritten(w) <==> Safe(w) && OneLine(w)
  {
    hide Redact, Masked, Safe;
    if Safe(w) && OneLine(w) {
      forall input, secrets: seq<string> | w in secrets ensures !Contains(Masked(input, secrets), w) {
        OutputHides(input, secrets, w);
      }
    } else {
      var text := SurvivingText(w);
      assert w in [w];
    }
  }

  lemma SurvivingText(w: string) returns (text: string)
    requires w != "" && !(Safe(w) && OneLine(w))
    ensures Contains(Masked(text, [w]), w)
  {
    hide Redact, Masked, Safe;
    if !OneLine(w) {
      MultiLineSecretShown(w);
      assert OccursAt(w, w, 0);
      text := w;
    } else {
      var r := UnsafeSurvives(w);
      RemnantMasked(w, r);
      text := r.Text(w);
    }
  }

  // ---------------------------------------------------------------- redaction keeps the lines

  predicate NewlineFree(secrets: seq<string>) {
    forall i :: 0 <= i < |secrets| ==> '\n' !in secrets[i]
  }

  lemma {:induction false} ReplaceKeepsNewline(l: string, w: string)
    requires w != "" && '\n' !in w && '\n' !in l
    ensures ReplaceAll(l + "\n", w) == ReplaceAll(l, w) + "\n" && '\n' !in ReplaceAll(l, w)
    decreases |l|
  {
    var s := l + "\n";
    if |l| < |w| {
      if |s| >= |w| {
        assert s[..|w|][|l|] == '\n';
        ShortSuffix(s[1..], w);
        assert [s[0]] + s[1..] == s;
      }
    } else {
      assert s[..|w|] == l[..|w|];
      if l[..|w|] == w {
        ReplaceKeepsNewline(l[|w|..], w);
        assert s[|w|..] == l[|w|..] + "\n";
        Assoc(MASK, ReplaceAll(l[|w|..], w), "\n");
      } else {
        ReplaceKeepsNewline(l[1..], w);
        assert s[1..] == l[1..] + "\n";
        Assoc([l[0]], ReplaceAll(l[1..], w), "\n");
      }
    }
  }

  lemma ShortSuffix(s: string, w: string)
    requires |s| < |w|
    ensures ReplaceAll(s, w) == s
  {
  }

  /** Without newlines in the secrets, a line stays one line, with its own text redacted. */
  lemma {:induction false} LineRedacted(l: string, secrets: seq<string>)
    requires '\n' !in l && NewlineFree(secrets)
    ensures Redact(l + "\n", secrets) == Redact(l, secrets) + "\n" && '\n' !in Redact(l, secrets)
    decreases |secrets|
  {
    if secrets != [] {
      var w := secrets[0];
      if w != "" {
        ReplaceKeepsNewline(l, w);
      }
      LineRedacted(if w == "" then l else ReplaceAll(l, w), secrets[1..]);
    }
  }

  /** So the file has one line for each line of the output, in order. */
  lemma OutputLines(input: string, secrets: seq<string>)
    requires NewlineFree(secrets)
    ensures Complete(Masked(input, secrets)) == RedactEach(Complete(input), secrets)
    ensures Rest(Masked(input, secrets)) == Redact(Rest(input), secrets)
  {
    hide Redact, Complete, Rest, NewlineFree;
    var ls := Complete(input);
    CompleteAreLines(input);
    forall i | 0 <= i < |ls| ensures IsLine(Redact(ls[i], secrets)) {
      var l := ls[i][..|ls[i]| - 1];
      LineRedacted(l, secrets);
      assert ls[i] == l + "\n";
      assert (Redact(l, secrets) + "\n")[..|Redact(l, secrets)|] == Redact(l, secrets);
    }
    LineRedacted(Rest(input), secrets);
    LinesOf(RedactEach(ls, secrets), Redact(Rest(input), secrets));
  }
}
