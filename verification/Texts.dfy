/** Stripping a text of the white space at its ends, as Python does. */
module Texts {
  /** The characters that stripping removes. */
  predicate IsSpace(c: char) {
    || c == ' ' || '\t' <= c <= '\r' || '\U{1c}' <= c <= '\U{1f}' || c == '\U{85}' || c == '\U{a0}'
    || c == '\U{1680}' || '\U{2000}' <= c <= '\U{200a}' || '\U{2028}' <= c <= '\U{2029}'
    || c == '\U{202f}' || c == '\U{205f}' || c == '\U{3000}'
  }

  function TrimLeft(s: string): string {
    if s != "" && IsSpace(s[0]) then TrimLeft(s[1..]) else s
  }

  function TrimRight(s: string): string {
    if s != "" && IsSpace(s[|s| - 1]) then TrimRight(s[..|s| - 1]) else s
  }

  function Strip(s: string): string { TrimRight(TrimLeft(s)) }

  predicate Blank(s: string) { forall c <- s :: IsSpace(c) }

  /** Neither end of the text is a space. */
  predicate Tight(s: string) { s == "" || (!IsSpace(s[0]) && !IsSpace(s[|s| - 1])) }

  lemma {:induction false} TrimLeftSplits(s: string) returns (a: string)
    ensures Blank(a) && s == a + TrimLeft(s) && (TrimLeft(s) == "" || !IsSpace(TrimLeft(s)[0]))
  {
    if s != "" && IsSpace(s[0]) {
      var rest := TrimLeftSplits(s[1..]);
      a := [s[0]] + rest;
    } else {
      a := "";
    }
  }

  lemma {:induction false} TrimRightSplits(s: string) returns (b: string)
    ensures Blank(b) && s == TrimRight(s) + b && (TrimRight(s) == "" || !IsSpace(TrimRight(s)[|TrimRight(s)| - 1]))
  {
    if s != "" && IsSpace(s[|s| - 1]) {
      var rest := TrimRightSplits(s[..|s| - 1]);
      b := rest + [s[|s| - 1]];
    } else {
      b := "";
    }
  }

  lemma {:induction false} TrimRightKeeps(s: string, i: nat)
    requires i < |s| && !IsSpace(s[i])
    ensures i < |TrimRight(s)|
    decreases |s|
  {
    if IsSpace(s[|s| - 1]) {
      TrimRightKeeps(s[..|s| - 1], i);
    }
  }

  lemma {:induction false} TrimLeftIs(a: string, t: string)
    requires Blank(a) && (t == "" || !IsSpace(t[0]))
    ensures TrimLeft(a + t) == t
  {
    if a == "" {
      assert a + t == t;
    } else {
      assert (a + t)[0] == a[0] && (a + t)[1..] == a[1..] + t;
      TrimLeftIs(a[1..], t);
    }
  }

  lemma {:induction false} TrimRightIs(t: string, b: string)
    requires Blank(b) && (t == "" || !IsSpace(t[|t| - 1]))
    ensures TrimRight(t + b) == t
    decreases |b|
  {
    if b == "" {
      assert t + b == t;
    } else {
      assert (t + b)[|t + b| - 1] == b[|b| - 1] && (t + b)[..|t + b| - 1] == t + b[..|b| - 1];
      TrimRightIs(t, b[..|b| - 1]);
    }
  }

  /** Stripping splits a text into space, a text tight at both ends, and space. */
  lemma StripSplits(s: string) returns (a: string, b: string)
    ensures Blank(a) && Blank(b) && s == a + Strip(s) + b && Tight(Strip(s))
  {
    hide IsSpace;
    a := TrimLeftSplits(s);
    b := TrimRightSplits(TrimLeft(s));
    assert Strip(s) != "" ==> Strip(s)[0] == TrimLeft(s)[0];
  }

  /** And there is only one such text. */
  lemma StripIs(a: string, t: string, b: string)
    requires Blank(a) && Blank(b) && Tight(t)
    ensures Strip(a + t + b) == t
  {
    hide IsSpace;
    if t == "" {
      assert a + t + b == (a + b) + "";
      TrimLeftIs(a + b, "");
    } else {
      assert a + t + b == a + (t + b);
      TrimLeftIs(a, t + b);
      TrimRightIs(t, b);
    }
  }

  lemma BlankIff(s: string)
    ensures Strip(s) == "" <==> Blank(s)
  {
    hide IsSpace;
    var a, b := StripSplits(s);
    if Blank(s) {
      assert s == s + "" + "";
      StripIs(s, "", "");
    }
  }
}
