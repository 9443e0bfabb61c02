/** Cutting a byte stream into newline-terminated lines and an unfinished rest. */
module Lines {
  import opened Sequences

  /** The position of the first newline, or the length when there is none. */
  function Break(s: string): (i: nat)
    ensures i <= |s|
    ensures i < |s| ==> s[i] == '\n'
    ensures forall j :: 0 <= j < i ==> s[j] != '\n'
  {
    if s == "" || s[0] == '\n' then 0
    else
      assert forall j :: 0 < j < |s| ==> s[j] == s[1..][j - 1];
      1 + Break(s[1..])
  }

  /** The complete lines, each with its newline. */
  function Complete(s: string): seq<string> {
    var i := Break(s);
    if i == |s| then [] else [s[..i + 1]] + Complete(s[i + 1..])
  }

  /** What follows the last newline. */
  function Rest(s: string): (r: string)
    ensures '\n' !in r && |r| <= |s|
  {
    var i := Break(s);
    if i == |s| then s else Rest(s[i + 1..])
  }

  function Concat(parts: seq<string>): string {
    if parts == [] then "" else parts[0] + Concat(parts[1..])
  }

  /** A newline-terminated line. */
  predicate IsLine(l: string) {
    l != "" && l[|l| - 1] == '\n' && '\n' !in l[..|l| - 1]
  }

  predicate AreLines(ls: seq<string>) {
    forall i :: 0 <= i < |ls| ==> IsLine(ls[i])
  }

  lemma BreakUnique(s: string, i: nat)
    requires i <= |s| && (i < |s| ==> s[i] == '\n') && forall j :: 0 <= j < i ==> s[j] != '\n'
    ensures Break(s) == i
  {
    var k := Break(s);
    hide Break;
    assert !(k < i) && !(i < k);
  }

  /** One step of the cut, in terms of the position of the first newline. */
  lemma Cut(s: string, i: nat)
    requires i == Break(s)
    ensures i == |s| ==> Complete(s) == [] && Rest(s) == s
    ensures i < |s| ==> Complete(s) == [s[..i + 1]] + Complete(s[i + 1..])
    ensures i < |s| ==> Rest(s) == Rest(s[i + 1..])
  {
    hide Break, Complete, Rest;
    CutComplete(s, i);
    CutRest(s, i);
  }

  lemma CutComplete(s: string, i: nat)
    requires i == Break(s)
    ensures i == |s| ==> Complete(s) == []
    ensures i < |s| ==> Complete(s) == [s[..i + 1]] + Complete(s[i + 1..])
  {
    hide Break, Rest;
  }

  lemma CutRest(s: string, i: nat)
    requires i == Break(s)
    ensures i == |s| ==> Rest(s) == s
    ensures i < |s| ==> Rest(s) == Rest(s[i + 1..])
  {
    hide Break, Complete;
  }

  lemma ConcatCons(l: string, ls: seq<string>)
    ensures Concat([l] + ls) == l + Concat(ls)
  {
    assert ([l] + ls)[1..] == ls;
  }

  lemma {:induction false} CompleteAreLines(s: string)
    ensures AreLines(Complete(s))
    decreases |s|
  {
    hide Break, Complete;
    var i := Break(s);
    Cut(s, Break(s));
    if i < |s| {
      CompleteAreLines(s[i + 1..]);
      assert s[..i + 1][..i] == s[..i];
    }
  }

  /** The lines and the rest make up the whole. */
  lemma {:induction false} LinesRebuild(s: string)
    ensures Concat(Complete(s)) + Rest(s) == s
    decreases |s|
  {
    hide Break, Complete, Rest;
    var i := Break(s);
    Cut(s, Break(s));
    if i < |s| {
      var tail := s[i + 1..];
      LinesRebuild(tail);
      ConcatCons(s[..i + 1], Complete(tail));
      hide Concat;
      Assoc(s[..i + 1], Concat(Complete(tail)), Rest(tail));
      assert s[..i + 1] + tail == s;
    }
  }

  lemma BreakAppend(a: string, b: string)
    ensures Break(a) < |a| ==> Break(a + b) == Break(a)
    ensures Break(a) == |a| ==> Break(a + b) == |a| + Break(b)
  {
    if Break(a) < |a| {
      BreakUnique(a + b, Break(a));
    } else {
      BreakUnique(a + b, |a| + Break(b));
    }
  }

  lemma CutAppend(a: string, b: string)
    requires Break(a) < |a|
    ensures var tail := a[Break(a) + 1..];
            && Complete(a + b) == [a[..Break(a) + 1]] + Complete(tail + b)
            && Rest(a + b) == Rest(tail + b)
  {
    hide Break, Complete, Rest;
    var i := Break(a);
    BreakAppend(a, b);
    Cut(a + b, Break(a + b));
    assert (a + b)[..i + 1] == a[..i + 1] && (a + b)[i + 1..] == a[i + 1..] + b;
  }

  /** Lines found so far never change: more input only extends them. */
  lemma {:induction false} LinesAppend(a: string, b: string)
    ensures Complete(a + b) == Complete(a) + Complete(Rest(a) + b)
    ensures Rest(a + b) == Rest(Rest(a) + b)
    decreases |a|
  {
    hide Break, Complete, Rest;
    var i := Break(a);
    Cut(a, Break(a));
    if i < |a| {
      var tail := a[i + 1..];
      CutAppend(a, b);
      LinesAppend(tail, b);
      Assoc([a[..i + 1]], Complete(tail), Complete(Rest(tail) + b));
    }
  }

  lemma LineBreak(l: string)
    requires IsLine(l)
    ensures Break(l) == |l| - 1
  {
    assert forall j :: 0 <= j < |l| - 1 ==> l[..|l| - 1][j] == l[j];
    BreakUnique(l, |l| - 1);
  }

  /** Cutting a stream built from lines gives the lines back. */
  lemma {:induction false} LinesOf(ls: seq<string>, r: string)
    requires AreLines(ls) && '\n' !in r
    ensures Complete(Concat(ls) + r) == ls && Rest(Concat(ls) + r) == r
  {
    hide Break, Complete, Rest;
    if ls == [] {
      assert Concat(ls) + r == r;
      BreakUnique(r, |r|);
      Cut(r, Break(r));
    } else {
      var l := ls[0];
      LineBreak(l);
      LinesOf(ls[1..], r);
      CutAppend(l, Concat(ls[1..]) + r);
      Assoc(l, Concat(ls[1..]), r);
      assert l[|l|..] + (Concat(ls[1..]) + r) == Concat(ls[1..]) + r;
      assert l[..|l|] == l;
    }
  }

  lemma {:induction false} ConcatAppend(a: seq<string>, b: seq<string>)
    ensures Concat(a + b) == Concat(a) + Concat(b)
  {
    if a == [] {
      assert a + b == b;
    } else {
      ConcatAppend(a[1..], b);
      assert (a + b)[1..] == a[1..] + b;
      Assoc(a[0], Concat(a[1..]), Concat(b));
    }
  }
}
