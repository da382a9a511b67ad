/** The removal of old generated checkpoint blocks from a text, line by line. */
module LegacyBlocks {
  import opened Texts

  const HEADING := "## Automated repository checkpoint"

  const PREFIXES := [
    "- Generated:", "- Branch:", "- Commit:", "- Commit subject:", "- Working tree:", "- Test evidence:",
    "- Project Kernel:", "- Project State:"]

  predicate IsHeading(line: string) { Strip(line) == HEADING }

  /** A line that belongs to a block once it has begun. */
  predicate IsGenerated(line: string) { Strip(line) == "" || exists p <- PREFIXES :: p <= Strip(line) }

  /** A heading is that very text and nothing else but space around it. */
  lemma HeadingMeans(line: string)
    ensures IsHeading(line) <==>
            exists a, b :: Blank(a) && Blank(b) && line == a + "## Automated repository checkpoint" + b
  {
    hide IsSpace;
    if IsHeading(line) {
      var a, b := StripSplits(line);
      assert line == a + "## Automated repository checkpoint" + b;
    }
    if a, b :| Blank(a) && Blank(b) && line == a + "## Automated repository checkpoint" + b {
      HeadingIsTight();
      StripIs(a, HEADING, b);
    }
  }

  lemma HeadingIsTight()
    ensures Tight(HEADING)
  {
    assert HEADING[0] == '#' && HEADING[|HEADING| - 1] == 't';
  }

  lemma PrefixesEnd(p: string)
    requires p in PREFIXES
    ensures p != "" && !IsSpace(p[0]) && !IsSpace(p[|p| - 1])
  {
    assert p[0] == '-' && p[|p| - 1] == ':';
  }

  /** A generated line is blank, or begins, after any space, with one of the eight fields. */
  lemma GeneratedMeans(line: string)
    ensures IsGenerated(line) <==>
            Blank(line) || exists a, p, rest :: Blank(a) && p in PREFIXES && line == a + p + rest
  {
    hide IsSpace, PREFIXES;
    BlankIff(line);
    if p :| p in PREFIXES && p <= Strip(line) {
      var a, b := StripSplits(line);
      assert line == a + p + (Strip(line)[|p|..] + b);
    }
    if a, p, rest :| Blank(a) && p in PREFIXES && line == a + p + rest {
      FieldIsGenerated(line, a, p, rest);
    }
  }

  lemma FieldIsGenerated(line: string, a: string, p: string, rest: string)
    requires Blank(a) && p in PREFIXES && line == a + p + rest
    ensures p <= Strip(line)
  {
    hide IsSpace, PREFIXES;
    PrefixesEnd(p);
    assert line == a + (p + rest);
    TrimLeftIs(a, p + rest);
    TrimRightKeeps(p + rest, |p| - 1);
    var b := TrimRightSplits(p + rest);
    assert TrimRight(p + rest) == (p + rest)[..|TrimRight(p + rest)|];
  }

  /** The line stands in an unbroken stretch of generated lines after a heading. */
  predicate InBlock(lines: seq<string>, i: nat)
    requires i <= |lines|
  {
    exists h | 0 <= h < i :: IsHeading(lines[h]) && forall k | h < k < i :: IsGenerated(lines[k])
  }

  /** Removed: the headings, and the generated lines right after one. */
  predicate Removed(lines: seq<string>, i: nat)
    requires i < |lines|
  {
    IsHeading(lines[i]) || (IsGenerated(lines[i]) && InBlock(lines, i))
  }

  /** The lines of the first `n` that stay. */
  function Kept(lines: seq<string>, n: nat): seq<string>
    requires n <= |lines|
  {
    if n == 0 then []
    else Kept(lines, n - 1) + (if Removed(lines, n - 1) then [] else [lines[n - 1]])
  }

  method RemoveLegacyBlocks(lines: seq<string>) returns (kept: seq<string>)
    ensures kept == Kept(lines, |lines|)
  {
    hide IsHeading, IsGenerated, InBlock;
    kept := [];
    var index := 0;
    NoBlockAtStart(lines);
    while index < |lines|
      invariant index <= |lines| && kept == Kept(lines, index)
      invariant index < |lines| && InBlock(lines, index) ==> !IsGenerated(lines[index])
    {
      if !IsHeading(lines[index]) {
        kept := kept + [lines[index]];
        index := index + 1;
        if InBlock(lines, index) {
          BlocksAreRemoved(lines, index);
        }
        continue;
      }
      ghost var heading := index;
      index := index + 1;
      while index < |lines| && IsGenerated(lines[index])
        invariant heading < index <= |lines| && kept == Kept(lines, index)
        invariant forall k | heading < k < index :: IsGenerated(lines[k])
      {
        WithinBlock(lines, heading, index);
        index := index + 1;
      }
    }
  }

  lemma NoBlockAtStart(lines: seq<string>)
    ensures !InBlock(lines, 0)
  {
  }

  lemma WithinBlock(lines: seq<string>, heading: nat, i: nat)
    requires heading < i <= |lines| && IsHeading(lines[heading])
    requires forall k | heading < k < i :: IsGenerated(lines[k])
    ensures InBlock(lines, i)
  {
    hide IsHeading, IsGenerated;
  }

  /** A block goes on only past a line that is removed. */
  lemma BlocksAreRemoved(lines: seq<string>, i: nat)
    requires i <= |lines| && InBlock(lines, i)
    ensures 0 < i && Removed(lines, i - 1)
  {
    hide IsHeading, IsGenerated;
    var h :| 0 <= h < i && IsHeading(lines[h]) && forall k | h < k < i :: IsGenerated(lines[k]);
    if h < i - 1 {
      assert InBlock(lines, i - 1);
    }
  }

  lemma {:induction false} KeptHasNoHeading(lines: seq<string>, n: nat)
    requires n <= |lines|
    ensures forall l <- Kept(lines, n) :: !IsHeading(l)
  {
    if n > 0 {
      KeptHasNoHeading(lines, n - 1);
    }
  }

  lemma {:induction false} WithoutHeadingAllStay(lines: seq<string>, n: nat)
    requires n <= |lines| && forall l <- lines :: !IsHeading(l)
    ensures Kept(lines, n) == lines[..n]
  {
    if n > 0 {
      WithoutHeadingAllStay(lines, n - 1);
      assert lines[n - 1] in lines;
      assert lines[..n] == lines[..n - 1] + [lines[n - 1]];
    }
  }

  /** No heading is left, and so a second removal changes nothing. */
  lemma RemovalIsFinal(lines: seq<string>)
    ensures var kept := Kept(lines, |lines|); Kept(kept, |kept|) == kept && forall l <- kept :: !IsHeading(l)
  {
    var kept := Kept(lines, |lines|);
    KeptHasNoHeading(lines, |lines|);
    WithoutHeadingAllStay(kept, |kept|);
  }

  /** A line of prose, neither heading nor generated, is never lost: each one is kept as often as it occurs. */
  lemma {:induction false} ProseSurvives(lines: seq<string>, n: nat, line: string)
    requires n <= |lines| && !IsHeading(line) && !IsGenerated(line)
    ensures multiset(Kept(lines, n))[line] == multiset(lines[..n])[line]
  {
    hide IsHeading, IsGenerated, InBlock;
    if n > 0 {
      ProseSurvives(lines, n - 1, line);
      assert lines[..n] == lines[..n - 1] + [lines[n - 1]];
    }
  }
}
