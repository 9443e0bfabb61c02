/**
 Masking secrets. A string here is a sequence of bytes, one per `char`.

 Replacing one secret by the mask may leave text that meets another secret, so whether a secret can
 survive depends on how it can overlap the mask. A secret that neither starts nor ends with the mask's
 character, and does not contain the mask, never survives, in any company; every other one can.
 */
module Redaction {
  const MASK := "***"

  /** `w` occurs in `s` at position `i`. */
  predicate OccursAt(s: string, w: string, i: nat) {
    i + |w| <= |s| && s[i..i + |w|] == w
  }

  ghost predicate Contains(s: string, w: string) {
    exists i: nat :: OccursAt(s, w, i)
  }

  /** Every non-overlapping occurrence of `w`, scanned from the left, becomes the mask. */
  function ReplaceAll(s: string, w: string): string
    requires w != ""
  {
    if |s| < |w| then s
    else if s[..|w|] == w then MASK + ReplaceAll(s[|w|..], w)
    else [s[0]] + ReplaceAll(s[1..], w)
  }

  /** The secrets are masked one after the other; empty ones are skipped. */
  function Redact(s: string, secrets: seq<string>): string
    decreases |secrets|
  {
    if secrets == [] then s
    else Redact(if secrets[0] == "" then s else ReplaceAll(s, secrets[0]), secrets[1..])
  }

  method RedactSecrets(s: string, secrets: seq<string>) returns (r: string)
    ensures r == Redact(s, secrets)
  {
    r := s;
    for i := 0 to |secrets|
      invariant Redact(r, secrets[i..]) == Redact(s, secrets)
    {
      assert secrets[i..][0] == secrets[i] && secrets[i..][1..] == secrets[i + 1..];
      if secrets[i] == "" {
        continue;
      }
      r := ReplaceAll(r, secrets[i]);
    }
  }

  /** No overlap with the mask can spell `w`. */
  ghost predicate Safe(w: string) {
    w != "" && w[0] != '*' && w[|w| - 1] != '*' && !Contains(w, MASK)
  }

  // ---------------------------------------------------------------- a safe secret never survives

  lemma OccursLater(s: string, w: string, k: nat, i: nat)
    requires k <= |s|
    ensures OccursAt(s[k..], w, i) <==> OccursAt(s, w, k + i)
  {
    if i + |w| <= |s| - k {
      assert s[k..][i..i + |w|] == s[k + i..k + i + |w|];
    }
  }

  lemma ContainsSuffix(s: string, w: string, k: nat)
    requires k <= |s| && Contains(s[k..], w)
    ensures Contains(s, w)
  {
    var i: nat :| OccursAt(s[k..], w, i);
    OccursLater(s, w, k, i);
  }

  lemma StartsWithMask(t: string, rest: string)
    requires t != "" && t[|t| - 1] != '*' && t <= MASK + rest
    ensures Contains(t, MASK)
  {
    assert |t| >= 3;
    assert OccursAt(t, MASK, 0);
  }

  /** Text with no trace of the mask that starts a masked string already started the original. */
  lemma {:induction false} MaskedPrefix(s: string, w: string, t: string)
    requires w != "" && t != "" && t[|t| - 1] != '*' && !Contains(t, MASK) && t <= ReplaceAll(s, w)
    ensures t <= s
  {
    if |s| >= |w| {
      if s[..|w|] == w {
        StartsWithMask(t, ReplaceAll(s[|w|..], w));
      } else if |t| > 1 {
        var rest := t[1..];
        assert rest <= ReplaceAll(s[1..], w);
        if Contains(rest, MASK) {
          ContainsSuffix(t, MASK, 1);
        }
        MaskedPrefix(s[1..], w, rest);
      }
    }
  }

  /** Masking any secret `w` never spells a safe text `v` that was not there. */
  lemma {:induction false} NeverRecreated(s: string, w: string, v: string)
    requires w != "" && Safe(v) && Contains(ReplaceAll(s, w), v)
    ensures Contains(s, v)
  {
    var t := ReplaceAll(s, w);
    var i: nat :| OccursAt(t, v, i);
    if i == 0 {
      MaskedPrefix(s, w, v);
      assert OccursAt(s, v, 0);
    } else if |s| >= |w| {
      if s[..|w|] == w {
        assert i >= 3;
        OccursLater(t, v, 3, i - 3);
        assert t[3..] == ReplaceAll(s[|w|..], w);
        NeverRecreated(s[|w|..], w, v);
        ContainsSuffix(s, v, |w|);
      } else {
        OccursLater(t, v, 1, i - 1);
        assert t[1..] == ReplaceAll(s[1..], w);
        NeverRecreated(s[1..], w, v);
        ContainsSuffix(s, v, 1);
      }
    }
  }

  lemma {:induction false} MaskedAwayAt(s: string, w: string, i: nat)
    requires Safe(w)
    ensures !OccursAt(ReplaceAll(s, w), w, i)
    decreases |s|
  {
    var t := ReplaceAll(s, w);
    if |s| >= |w| {
      assert i + |w| <= |t| ==> t[i..i + |w|][0] == t[i];
      if s[..|w|] == w {
        if i >= 3 {
          MaskedAwayAt(s[|w|..], w, i - 3);
          assert t[3..] == ReplaceAll(s[|w|..], w);
          OccursLater(t, w, 3, i - 3);
        }
      } else if i > 0 {
        MaskedAwayAt(s[1..], w, i - 1);
        assert t[1..] == ReplaceAll(s[1..], w);
        OccursLater(t, w, 1, i - 1);
      } else if OccursAt(t, w, 0) {
        MaskedPrefix(s, w, w);
      }
    }
  }

  /** Masking a safe secret removes it. */
  lemma MaskedAway(s: string, w: string)
    requires Safe(w)
    ensures !Contains(ReplaceAll(s, w), w)
  {
    forall i: nat ensures !OccursAt(ReplaceAll(s, w), w, i) {
      MaskedAwayAt(s, w, i);
    }
  }

  lemma {:induction false} StaysOut(s: string, secrets: seq<string>, w: string)
    requires Safe(w) && !Contains(s, w)
    ensures !Contains(Redact(s, secrets), w)
    decreases |secrets|
  {
    if secrets != [] {
      var first := secrets[0];
      var t := if first == "" then s else ReplaceAll(s, first);
      if Contains(t, w) {
        NeverRecreated(s, first, w);
      }
      StaysOut(t, secrets[1..], w);
    }
  }

  /** Whatever the other secrets, their order and overlaps, a safe secret is gone from the result. */
  lemma {:induction false} SafeSecretGone(s: string, secrets: seq<string>, w: string)
    requires Safe(w) && w in secrets
    ensures !Contains(Redact(s, secrets), w)
    decreases |secrets|
  {
    if secrets[0] == w {
      MaskedAway(s, w);
      StaysOut(ReplaceAll(s, w), secrets[1..], w);
    } else {
      assert w in secrets[1..];
      SafeSecretGone(if secrets[0] == "" then s else ReplaceAll(s, secrets[0]), secrets[1..], w);
    }
  }

  /** A secret without the mask's character is safe. */
  lemma StarFreeSafe(w: string)
    requires w != "" && '*' !in w
    ensures Safe(w)
  {
    forall i: nat ensures !OccursAt(w, MASK, i) {
      assert i < |w| ==> w[i] in w;
      assert i + 3 <= |w| ==> w[i..i + 3][0] == w[i];
    }
  }

  // ---------------------------------------------------------------- every other secret can survive

  lemma {:induction false} LiteralPrefix(s: string, w: string, n: nat)
    requires w != "" && n <= |s| && forall i: nat :: i < n ==> !OccursAt(s, w, i)
    ensures ReplaceAll(s, w) == s[..n] + ReplaceAll(s[n..], w)
  {
    if n == 0 {
      assert s[0..] == s && s[..0] == [];
    } else {
      LiteralStep(s, w);
      forall i: nat | i < n - 1 ensures !OccursAt(s[1..], w, i) {
        OccursLater(s, w, 1, i);
      }
      LiteralPrefix(s[1..], w, n - 1);
      TakeOne(s, n, ReplaceAll(s[n..], w));
      assert s[1..][n - 1..] == s[n..];
    }
  }

  lemma LiteralStep(s: string, w: string)
    requires w != "" && s != "" && !OccursAt(s, w, 0)
    ensures ReplaceAll(s, w) == [s[0]] + ReplaceAll(s[1..], w)
  {
    assert |s| >= |w| ==> s[0..0 + |w|] == s[..|w|];
  }

  lemma TakeOne(s: string, n: nat, rest: string)
    requires 0 < n <= |s|
    ensures [s[0]] + (s[1..][..n - 1] + rest) == s[..n] + rest
  {
  }

  /** A secret on its own comes out as three stars. */
  lemma SecretMasked(w: string)
    requires w != ""
    ensures Redact(w, [w]) == "***"
  {
    ReplaceStart(w, "");
    assert w + "" == w && [w][1..] == [];
    assert MASK + ReplaceAll("", w) == MASK;
  }

  lemma ReplaceStart(w: string, tail: string)
    requires w != ""
    ensures ReplaceAll(w + tail, w) == MASK + ReplaceAll(tail, w)
  {
    assert (w + tail)[..|w|] == w && (w + tail)[|w|..] == tail;
  }

  /** `head + w + tail`, when `w` occurs nowhere before the end of `head`. */
  lemma ReplaceMiddle(head: string, w: string, tail: string)
    requires w != "" && |tail| < |w|
    requires forall i: nat :: i < |head| ==> !OccursAt(head + w + tail, w, i)
    ensures ReplaceAll(head + w + tail, w) == head + MASK + tail
  {
    var s := head + w + tail;
    LiteralPrefix(s, w, |head|);
    assert s[..|head|] == head && s[|head|..] == w + tail;
    ReplaceStart(w, tail);
    assert head + (MASK + tail) == head + MASK + tail;
  }

  /** How a text around an unsafe secret can come out spelling the secret again. */
  datatype Remnant = Remnant(head: string, tail: string)
  {
    function Text(w: string): string { head + w + tail }

    function Masked(): string { head + MASK + tail }

    ghost predicate Survives(w: string) {
      && w != ""
      && head < w
      && |tail| < |w| && tail == w[|w| - |tail|..]
      && (forall i: nat :: i < |head| ==> !OccursAt(Text(w), w, i))
      && ReplaceAll(Text(w), w) == Masked()
      && Contains(Masked(), w)
    }
  }

  lemma StartsMasked(w: string) returns (r: Remnant)
    requires w != "" && w[0] == '*'
    ensures r == Remnant("", w[1..]) && r.Survives(w)
  {
    r := Remnant("", w[1..]);
    ReplaceMiddle("", w, w[1..]);
    assert OccursAt("" + MASK + w[1..], w, 2);
  }

  lemma EndsMasked(w: string) returns (r: Remnant)
    requires w != "" && w[0] != '*' && w[|w| - 1] == '*'
    ensures r == Remnant(w[..|w| - 1], "") && r.Survives(w)
  {
    var v := w[..|w| - 1];
    r := Remnant(v, "");
    forall i: nat | i < |v| ensures !OccursAt(v + w + "", w, i) {
      assert v + w + "" == v + w;
      ShiftedEnds(v, w, i);
    }
    ReplaceMiddle(v, w, "");
    assert OccursAt(v + MASK + "", w, 0);
  }

  lemma OccurrenceChars(s: string, w: string, i: nat)
    requires OccursAt(s, w, i)
    ensures forall j: nat :: j < |w| ==> s[i + j] == w[j]
  {
    forall j: nat | j < |w| ensures s[i + j] == w[j] {
      assert s[i..i + |w|][j] == s[i + j];
    }
  }

  /** An occurrence of `w` that overlaps the one it precedes makes both ends of `w` equal. */
  lemma ShiftedEnds(v: string, w: string, i: nat)
    requires w != "" && v == w[..|w| - 1] && i < |v|
    ensures OccursAt(v + w, w, i) ==> w[0] == w[|w| - 1]
  {
    if OccursAt(v + w, w, i) {
      OccurrenceChars(v + w, w, i);
      assert (v + w)[i + 0] == w[0] && (v + w)[i] == w[i];
      assert (v + w)[i + (|w| - 1)] == w[|w| - 1] && (v + w)[|v| + i] == w[i];
    }
  }

  lemma HoldsMask(w: string) returns (r: Remnant)
    requires w != "" && Contains(w, MASK)
    ensures r.Survives(w) && r.head + MASK + r.tail == w
  {
    var x := FirstMask(w);
    var a, b := w[..x], w[x + 3..];
    r := Remnant(a, b);
    forall i: nat | i < |a| ensures !OccursAt(a + w + b, w, i) {
      ShiftedMask(w, x, i, b);
    }
    ReplaceMiddle(a, w, b);
    assert a + MASK + b == w;
    assert OccursAt(w, w, 0);
  }

  /** An earlier occurrence of `w` would make its mask occur earlier too. */
  lemma ShiftedMask(w: string, x: nat, i: nat, b: string)
    requires i < x && OccursAt(w, MASK, x)
    ensures OccursAt(w[..x] + w + b, w, i) ==> OccursAt(w, MASK, i)
  {
    var s := w[..x] + w + b;
    if OccursAt(s, w, i) {
      OccurrenceChars(s, w, i);
      OccurrenceChars(w, MASK, x);
      forall j: nat | j < 3 ensures w[i + j] == MASK[j] {
        assert s[i + (x + j)] == w[x + j] == MASK[j];
        assert s[x + (i + j)] == w[i + j];
      }
      assert w[i..i + 3] == MASK;
    }
  }

  lemma FirstMask(w: string) returns (x: nat)
    requires Contains(w, MASK)
    ensures OccursAt(w, MASK, x) && forall i: nat :: i < x ==> !OccursAt(w, MASK, i)
  {
    x := 0;
    var k: nat :| OccursAt(w, MASK, k);
    while !OccursAt(w, MASK, x)
      invariant x <= k && forall i: nat :: i < x ==> !OccursAt(w, MASK, i)
      decreases k - x
    {
      x := x + 1;
    }
  }

  /** An unsafe secret survives around one of its own occurrences. */
  lemma UnsafeSurvives(w: string) returns (r: Remnant)
    requires w != "" && !Safe(w)
    ensures r.Survives(w)
  {
    if w[0] == '*' {
      r := StartsMasked(w);
    } else if w[|w| - 1] == '*' {
      r := EndsMasked(w);
    } else {
      r := HoldsMask(w);
    }
  }

  ghost predicate AlwaysMasked(w: string) {
    forall s, secrets: seq<string> :: w in secrets ==> !Contains(Redact(s, secrets), w)
  }

  /** A non-empty secret never survives, in any text and any company, exactly when it is safe. */
  lemma RedactionCompleteIff(w: string)
    requires w != ""
    ensures AlwaysMasked(w) <==> Safe(w)
  {
    if Safe(w) {
      forall s, secrets: seq<string> | w in secrets ensures !Contains(Redact(s, secrets), w) {
        SafeSecretGone(s, secrets, w);
      }
    } else {
      var r := UnsafeSurvives(w);
      var secrets := [w];
      assert Redact(r.Text(w), secrets) == ReplaceAll(r.Text(w), w);
      assert w in secrets;
    }
  }
}
