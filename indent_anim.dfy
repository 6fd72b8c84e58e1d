/**
 * tools/indent_anim.py: re-indents an X-Plane object file so that the body of
 * every `ANIM_begin` ... `ANIM_end` block is indented four more spaces than
 * the block itself.  The indent is a running counter that may go negative on
 * unbalanced input; a negative indent writes no spaces.
 */
module IndentAnim {
  import opened Strings

  predicate IsBegin(l: string) { Contains(l, "ANIM_begin") }
  /** Only tested when the line is not a begin line. */
  predicate IsEnd(l: string) { !IsBegin(l) && Contains(l, "ANIM_end") }

  /** The indent counter after the lines ls, starting from 0. */
  function IndentAfter(ls: seq<string>): int
  {
    if ls == [] then 0
    else
      var l := ls[|ls| - 1];
      IndentAfter(ls[..|ls| - 1]) + (if IsBegin(l) then 4 else if IsEnd(l) then -4 else 0)
  }

  /** The indent a line is written at when the counter before it is d. */
  function LineIndent(d: int, l: string): int
  {
    if IsEnd(l) then d - 4 else d
  }

  /** The output lines for the input lines ls. */
  function Indented(ls: seq<string>): seq<string>
  {
    if ls == [] then []
    else
      var init := ls[..|ls| - 1];
      var l := ls[|ls| - 1];
      Indented(init) + [Spaces(LineIndent(IndentAfter(init), l)) + l]
  }

  function BeginCount(ls: seq<string>): nat
  {
    if ls == [] then 0 else BeginCount(ls[..|ls| - 1]) + (if IsBegin(ls[|ls| - 1]) then 1 else 0)
  }

  function EndCount(ls: seq<string>): nat
  {
    if ls == [] then 0 else EndCount(ls[..|ls| - 1]) + (if IsEnd(ls[|ls| - 1]) then 1 else 0)
  }

  /** The script's loop: each line is written after `indent` spaces. */
  method IndentLines(lines: seq<string>) returns (out: seq<string>)
    ensures out == Indented(lines)
  {
    out := [];
    var indent := 0;
    for i := 0 to |lines|
      invariant indent == IndentAfter(lines[..i])
      invariant out == Indented(lines[..i])
    {
      assert lines[..i + 1][..i] == lines[..i];
      var l := lines[i];
      if Contains(l, "ANIM_begin") {
        l := Spaces(indent) + l;
        out := out + [l];
        indent := indent + 4;
      } else if Contains(l, "ANIM_end") {
        indent := indent - 4;
        l := Spaces(indent) + l;
        out := out + [l];
      } else {
        l := Spaces(indent) + l;
        out := out + [l];
      }
    }
    assert lines[..|lines|] == lines;
  }

  /** The counter is four times the surplus of begin lines over end lines. */
  lemma {:induction false} IndentIsNesting(ls: seq<string>)
    ensures IndentAfter(ls) == 4 * (BeginCount(ls) - EndCount(ls))
  {
    if ls != [] {
      IndentIsNesting(ls[..|ls| - 1]);
    }
  }

  /**
   * Every output line is its input line after exactly max(0, indent) spaces,
   * where the indent is the counter before it, less 4 for an end line.
   */
  lemma {:induction false} IndentedLines(ls: seq<string>)
    ensures |Indented(ls)| == |ls|
    ensures forall j :: 0 <= j < |ls| ==>
      var d := LineIndent(IndentAfter(ls[..j]), ls[j]);
      Indented(ls)[j] == Spaces(d) + ls[j] && |Spaces(d)| == (if d < 0 then 0 else d)
  {
    if ls != [] {
      var init := ls[..|ls| - 1];
      IndentedLines(init);
      forall j | 0 <= j < |ls|
        ensures Indented(ls)[j] == Spaces(LineIndent(IndentAfter(ls[..j]), ls[j])) + ls[j]
      {
        if j < |ls| - 1 {
          assert ls[..j] == init[..j];
          assert Indented(ls)[j] == Indented(init)[j];
        } else {
          assert ls[..j] == init;
        }
      }
    }
  }

  /** A line holding both markers counts as a begin line: written at the current indent, which then grows. */
  lemma BeginWins(ls: seq<string>, l: string)
    requires Contains(l, "ANIM_begin") && Contains(l, "ANIM_end")
    ensures IndentAfter(ls + [l]) == IndentAfter(ls) + 4
    ensures LineIndent(IndentAfter(ls), l) == IndentAfter(ls)
  {
    assert (ls + [l])[..|ls|] == ls;
  }

  /** The counter change over a concatenation is the sum of the changes. */
  lemma {:induction false} IndentAppend(a: seq<string>, b: seq<string>)
    ensures IndentAfter(a + b) == IndentAfter(a) + IndentAfter(b)
  {
    if b != [] {
      var b' := b[..|b| - 1];
      assert (a + b)[..|a + b| - 1] == a + b';
      IndentAppend(a, b');
    } else {
      assert a + b == a;
    }
  }

  /**
   * An end line whose block body leaves the counter unchanged is written at
   * the same indent as the begin line that opened the block.
   */
  lemma EndAlignsWithBegin(ls: seq<string>, j: nat, m: nat)
    requires j < m < |ls| && IsBegin(ls[j]) && IsEnd(ls[m])
    requires IndentAfter(ls[j + 1..m]) == 0
    ensures LineIndent(IndentAfter(ls[..m]), ls[m]) == LineIndent(IndentAfter(ls[..j]), ls[j])
  {
    assert ls[..m] == ls[..j] + [ls[j]] + ls[j + 1..m];
    IndentAppend(ls[..j] + [ls[j]], ls[j + 1..m]);
    IndentAppend(ls[..j], [ls[j]]);
    assert [ls[j]][..0] == [];
  }

  /** Balanced: no prefix closes more blocks than it opened, and all are closed. */
  predicate Balanced(ls: seq<string>)
  {
    (forall j :: 0 <= j <= |ls| ==> EndCount(ls[..j]) <= BeginCount(ls[..j]))
    && EndCount(ls) == BeginCount(ls)
  }

  /** On balanced input the indent never goes negative and ends at zero. */
  lemma BalancedIndent(ls: seq<string>)
    requires Balanced(ls)
    ensures forall j :: 0 <= j <= |ls| ==> IndentAfter(ls[..j]) >= 0
    ensures IndentAfter(ls) == 0
  {
    forall j | 0 <= j <= |ls|
      ensures IndentAfter(ls[..j]) >= 0
    {
      IndentIsNesting(ls[..j]);
    }
    IndentIsNesting(ls);
  }
}
