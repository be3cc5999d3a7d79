/**
 * Declaration text as a sequence of indented lines.
 *
 * The generated declaration is one multi-line Swift string literal: its lines
 * are separated by a single newline, there is no trailing newline, and each
 * nesting level is indented by four spaces.
 */
module TextLines {

  /** One line of generated code: its nesting depth and its text without indentation. */
  datatype Line = Line(depth: nat, code: string)

  /** The indentation of one nesting level. */
  const IndentUnit: string := "    "

  /** Indentation for `depth` nesting levels: nothing but spaces. */
  function Spaces(depth: nat): (s: string)
    ensures |s| == 4 * depth
    ensures forall i :: 0 <= i < |s| ==> s[i] == ' '
  {
    if depth == 0 then "" else IndentUnit + Spaces(depth - 1)
  }

  /** A line as it appears in the text: indentation followed by the code. */
  function RenderLine(l: Line): string
  {
    Spaces(l.depth) + l.code
  }

  /** The rendered form of each line, in order. */
  function Rendered(ls: seq<Line>): (r: seq<string>)
    ensures |r| == |ls|
    ensures forall i :: 0 <= i < |ls| ==> r[i] == RenderLine(ls[i])
  {
    if ls == [] then [] else [RenderLine(ls[0])] + Rendered(ls[1..])
  }

  /** Lines separated by a single newline, with no trailing newline. */
  function JoinLines(ss: seq<string>): (text: string)
    ensures |ss| > 0 ==> ss[0] <= text
  {
    if ss == [] then ""
    else if |ss| == 1 then ss[0]
    else ss[0] + "\n" + JoinLines(ss[1..])
  }

  /** The text of a sequence of lines. */
  function Text(ls: seq<Line>): string
  {
    JoinLines(Rendered(ls))
  }

  /** Concatenation regrouped, for joining pieces of text in steps. */
  lemma Associative(a: string, b: string, c: string)
    ensures a + (b + c) == a + b + c
  {
  }

  /** Splits text at every newline; the inverse of `JoinLines` on newline-free lines. */
  function SplitLines(s: string): (r: seq<string>)
    ensures |r| >= 1
  {
    if s == [] then [""]
    else
      var rest := SplitLines(s[1..]);
      if s[0] == '\n' then [""] + rest else [[s[0]] + rest[0]] + rest[1..]
  }

  /** Text with no newline is a single line. */
  lemma {:induction false} SplitSingle(a: string)
    requires '\n' !in a
    ensures SplitLines(a) == [a]
  {
    if a != [] {
      assert a[0] in a;
      assert forall c :: c in a[1..] ==> c in a;
      SplitSingle(a[1..]);
      assert [a[0]] + a[1..] == a;
    }
  }

  /** Splitting stops at the first newline. */
  lemma {:induction false} SplitAtNewline(a: string, b: string)
    requires '\n' !in a
    ensures SplitLines(a + "\n" + b) == [a] + SplitLines(b)
  {
    if a == [] {
      assert a + "\n" + b == ['\n'] + b;
      assert (['\n'] + b)[1..] == b;
    } else {
      assert a[0] in a;
      assert forall c :: c in a[1..] ==> c in a;
      SplitAtNewline(a[1..], b);
      var s := a + "\n" + b;
      assert s[0] == a[0];
      assert s[1..] == a[1..] + "\n" + b;
      assert [a[0]] + a[1..] == a;
    }
  }

  /** Splitting joined newline-free lines gives the lines back. */
  lemma {:induction false} SplitJoin(ss: seq<string>)
    requires |ss| > 0
    requires forall i :: 0 <= i < |ss| ==> '\n' !in ss[i]
    ensures SplitLines(JoinLines(ss)) == ss
  {
    if |ss| == 1 {
      SplitSingle(ss[0]);
    } else {
      SplitAtNewline(ss[0], JoinLines(ss[1..]));
      SplitJoin(ss[1..]);
      assert [ss[0]] + ss[1..] == ss;
    }
  }

  /** A rendered line holds a newline only if its code does. */
  lemma RenderedNoNewline(l: Line)
    requires '\n' !in l.code
    ensures '\n' !in RenderLine(l)
  {
    var s := Spaces(l.depth);
    assert forall i :: 0 <= i < |s| ==> s[i] != '\n';
  }

  /** The text of newline-free lines splits back into exactly their rendered forms. */
  lemma SplitText(ls: seq<Line>)
    requires |ls| > 0
    requires forall i :: 0 <= i < |ls| ==> '\n' !in ls[i].code
    ensures SplitLines(Text(ls)) == Rendered(ls)
  {
    forall i | 0 <= i < |ls| ensures '\n' !in Rendered(ls)[i] {
      RenderedNoNewline(ls[i]);
    }
    SplitJoin(Rendered(ls));
  }
}
